/** What a deadline of the remote coordinator is worth: until then every rank holds the ticket's
    lease, whatever happens meanwhile, as long as no invalidation of the pair outlives its veto. */
module RemoteDeadlines {
  import opened Basics
  import opened Coordination
  import opened RemoteProtocol
  import opened RemoteInvariant
  import opened RemoteSteps
  import opened RemoteTheorems

  // ---- whose a lease is -----------------------------------------------------------------

  // The rank knows the lease as one for writing exactly if it was asked for by a writer.
  ghost predicate Marked(w: World, at: RankLease, id: Identity) {
    && (at in w.writes <==> id.writing) && (id.writing ==> w.writes[at] == id.pair)
  }

  // Only writing leases are ever revoked.
  ghost predicate WritesOk(w: World) {
    && w.writes.Keys <= w.granted && w.taken <= w.writes.Keys
    && (forall k, at :: k in w.issued && Owns(k, at) ==> Marked(w, at, k.Id()))
    && (forall o, at :: o in w.ops && Awaits(w.ops[o], at) ==> Marked(w, at, w.ops[o].id))
  }

  ghost predicate MarksKept(w: World, v: World) {
    && w.granted <= v.granted && v.writes.Keys <= v.granted && v.taken <= v.writes.Keys
    && (forall at :: at in w.granted ==>
          (at in v.writes <==> at in w.writes) && (at in w.writes ==> v.writes[at] == w.writes[at]))
  }

  lemma GrantRanks(cfg: Config, w: World, o: OpId, op: Op, step: Step)
    requires LeasesOk(w) && w.writes.Keys <= w.granted && w.taken <= w.writes.Keys
    requires cfg.Valid() && step.Granted? && StepEnabled(cfg, w, op, step)
    ensures Grows(w, ApplyStep(cfg, w, o, op, step)) && MarksKept(w, ApplyStep(cfg, w, o, op, step))
  {
  }

  lemma DeliverRanks(w: World, e: Entry, effect: bool, trails: bool)
    requires LeasesOk(w) && w.writes.Keys <= w.granted && w.taken <= w.writes.Keys && EntryOk(w, e)
    ensures Grows(w, Deliver(w, e, effect, trails)) && MarksKept(w, Deliver(w, e, effect, trails))
  {
  }

  lemma RenewRanks(cfg: Config, w: World, o: OpId, op: Op, step: Step)
    requires LeasesOk(w) && w.writes.Keys <= w.granted && w.taken <= w.writes.Keys
    requires cfg.Valid() && (step.RenewReplied? || step.Denied?) && StepEnabled(cfg, w, op, step)
    ensures Grows(w, ApplyStep(cfg, w, o, op, step)) && MarksKept(w, ApplyStep(cfg, w, o, op, step))
  {
  }

  lemma EventRanks(w: World, e: Event)
    requires LeasesOk(w) && w.writes.Keys <= w.granted && w.taken <= w.writes.Keys && EventEnabled(w, e)
    ensures Grows(w, ApplyEvent(w, e)) && MarksKept(w, ApplyEvent(w, e))
  {
  }

  // Only the operations differ.
  lemma SameGrows(u: World, v: World, w: World)
    requires Grows(w, u) && MarksKept(w, u)
    requires SameRanks(u, v) && u.withdrawn <= v.withdrawn && u.issued <= v.issued
    ensures Grows(w, v) && MarksKept(w, v)
  {
  }

  lemma ReplyRanks(cfg: Config, w: World, o: OpId, op: Op, step: Step)
    requires Inv(cfg, w) && w.writes.Keys <= w.granted && w.taken <= w.writes.Keys
    requires o in w.ops && w.ops[o] == op && step.Replied? && StepEnabled(cfg, w, op, step)
    ensures Grows(w, ApplyStep(cfg, w, o, op, step)) && MarksKept(w, ApplyStep(cfg, w, o, op, step))
  {
    hide OpsOk, Apart, PendingOk, TicketsOk, LeasesOk, ValidOk, CreditsOk, LogOk, NothingForgotten, Deliver, Grows, MarksKept;
    OpIsOk(cfg, w, o);
    var e := if op.Calling? then op.work[0] else op.entry;
    assert e in Owes(op);
    DeliverRanks(w, e, step.effect, step.trails);
    SameGrows(Deliver(w, e, step.effect, step.trails), ApplyStep(cfg, w, o, op, step), w);
  }

  lemma Unmoved(cfg: Config, w: World)
    requires LeasesOk(w) && w.writes.Keys <= w.granted && w.taken <= w.writes.Keys
    ensures Grows(w, w) && MarksKept(w, w)
  {
  }

  // Whatever happens, time and knowledge only grow and leases relied on stay.
  lemma RanksStep(cfg: Config, w: World, a: Act)
    requires Inv(cfg, w) && w.writes.Keys <= w.granted && w.taken <= w.writes.Keys && Enabled(cfg, w, a)
    ensures Grows(w, Apply(cfg, w, a)) && MarksKept(w, Apply(cfg, w, a))
  {
    hide OpsOk, Apart, PendingOk, TicketsOk, LeasesOk, ValidOk, CreditsOk, LogOk, NothingForgotten, Grows, MarksKept,
      ApplyEvent, ApplyCall, ApplyStep, ApplyGo;
    Unmoved(cfg, w);
    match a
    case Outside(e) => EventRanks(w, e);
    case Begin(o, call) =>
      CallShape(cfg, w, o, call);
      SameGrows(w, ApplyCall(cfg, w, o, call), w);
    case Advance(o, step) =>
      match step
      case Granted(at, expiry, seen) => GrantRanks(cfg, w, o, w.ops[o], step);
      case Replied(ack, effect, trails) => ReplyRanks(cfg, w, o, w.ops[o], step);
      case Go(token) =>
        GoRanks(cfg, w, o, w.ops[o], token);
        StepGo(cfg, w, o, w.ops[o], token);
        SameGrows(w, ApplyGo(cfg, w, o, w.ops[o], token), w);
      case _ => RenewRanks(cfg, w, o, w.ops[o], step);
  }

  // ---- which leases a reservation has seen ------------------------------------------------

  // A new reservation has seen nothing yet.
  lemma GoSees(cfg: Config, w: World, o: OpId, op: Op, token: Token, at: RankLease)
    requires cfg.Valid() && o in w.ops && StepEnabled(cfg, w, op, Go(token))
    ensures
      var v := ApplyGo(cfg, w, o, op, token);
      o in v.ops ==> !Awaits(v.ops[o], at)
  {
    hide ApplyGo, Releases, Invalidations, Rollbacks, RenewOk, RecheckOk, CommitOk;
    GoNext(cfg, w, o, op, token);
  }

  lemma ReplySees(cfg: Config, w: World, o: OpId, op: Op, step: Step, at: RankLease)
    requires cfg.Valid() && o in w.ops && w.ops[o] == op && StepEnabled(cfg, w, op, step) && !step.Go?
    ensures
      var v := ApplyStep(cfg, w, o, op, step);
      Awaits(v.ops[o], at) ==>
        && op.Reserving? && v.ops[o].id == op.id
        && (Awaits(op, at) || (step.Granted? && step.at == at))
  {
    hide ApplyGo, Deliver;
  }

  // A lease is seen because it was seen before or has just been granted.
  lemma SeesStep(cfg: Config, w: World, a: Act, x: OpId, at: RankLease)
    requires cfg.Valid() && Enabled(cfg, w, a) && x in Apply(cfg, w, a).ops && Awaits(Apply(cfg, w, a).ops[x], at)
    ensures x in w.ops && w.ops[x].Reserving? && Apply(cfg, w, a).ops[x].id == w.ops[x].id
    ensures Awaits(w.ops[x], at) || (a.Advance? && a.o == x && a.step.Granted? && a.step.at == at)
  {
    hide ApplyEvent, ApplyCall, ApplyStep, ApplyGo, Awaits;
    match a
    case Outside(e) =>
      EventShape(w, e);
      AwaitsIs(w.ops[x], at);
    case Begin(o, call) =>
      CallShape(cfg, w, o, call);
      CallSees(cfg, w, o, call, at);
      AwaitsIs(w.ops[x], at);
    case Advance(o, step) =>
      if step.Go? {
        AloneGo(cfg, w, o, w.ops[o], step.token);
        StepGo(cfg, w, o, w.ops[o], step.token);
        GoSees(cfg, w, o, w.ops[o], step.token, at);
        AwaitsIs(w.ops[x], at);
      } else {
        StepAnswers(cfg, w, o, w.ops[o], step);
        ReplySees(cfg, w, o, w.ops[o], step, at);
        AwaitsIs(w.ops[x], at);
      }
  }

  lemma AwaitsIs(op: Op, at: RankLease)
    ensures Awaits(op, at) ==> op.Reserving?
  {
  }

  lemma CallSees(cfg: Config, w: World, o: OpId, call: Call, at: RankLease)
    requires o !in w.ops
    ensures o in ApplyCall(cfg, w, o, call).ops ==> !Awaits(ApplyCall(cfg, w, o, call).ops[o], at)
  {
    hide ApplyCall, Lookup;
    CallBegins(cfg, w, o, call);
  }

  // A new ticket has the leases its reservation had seen.
  lemma IssuedStep(cfg: Config, w: World, a: Act, k: Ticket)
    requires cfg.Valid() && Enabled(cfg, w, a) && k in Apply(cfg, w, a).issued && k !in w.issued
    ensures a.Advance? && a.o in w.ops && w.ops[a.o].Reserving? && k.Id() == w.ops[a.o].id
    ensures forall at :: Owns(k, at) ==> Awaits(w.ops[a.o], at)
  {
    hide ApplyEvent, ApplyCall, ApplyStep, ApplyGo;
    match a
    case Outside(e) => EventShape(w, e);
    case Begin(o, call) => CallShape(cfg, w, o, call);
    case Advance(o, step) =>
      if !step.Go? {
        StepAnswers(cfg, w, o, w.ops[o], step);
      } else {
        StepGo(cfg, w, o, w.ops[o], step.token);
        if w.ops[o].Reserving? {
          MintedFrom(cfg, w, o, w.ops[o], step.token, k);
        } else if w.ops[o].Settled? {
          FinishShape(cfg, w, o, w.ops[o].goal, w.ops[o].acked);
          GoSettled(cfg, w, o, w.ops[o], step.token);
        } else {
          TameGo(cfg, w, o, w.ops[o], step.token);
        }
      }
  }


  lemma MintedFrom(cfg: Config, w: World, o: OpId, op: Op, token: Token, k: Ticket)
    requires cfg.Valid() && op.Reserving? && k in ApplyGo(cfg, w, o, op, token).issued && k !in w.issued
    ensures k.Id() == op.id && forall at :: Owns(k, at) ==> Awaits(op, at)
  {
    hide Rollbacks, SeenLeases, Commit;
  }

  // The leases of the tickets and of the reservations in progress are marked as theirs.
  lemma WritesStep(cfg: Config, w: World, a: Act)
    requires Inv(cfg, w) && WritesOk(w) && Enabled(cfg, w, a)
    ensures WritesOk(Apply(cfg, w, a))
  {
    var v := Apply(cfg, w, a);
    RanksStep(cfg, w, a);
    hide OpsOk, Apart, PendingOk, TicketsOk, ValidOk, CreditsOk, LogOk, NothingForgotten, Apply, Enabled, Grows;
    forall k, at | k in v.issued && Owns(k, at) ensures Marked(v, at, k.Id()) {
      if k !in w.issued {
        IssuedStep(cfg, w, a, k);
        AwaitedGranted(cfg, w, a.o, at);
      }
      assert Marked(w, at, k.Id()) && at in w.granted;
    }
    forall o, at | o in v.ops && Awaits(v.ops[o], at) ensures Marked(v, at, v.ops[o].id) {
      SeesStep(cfg, w, a, o, at);
      if Awaits(w.ops[o], at) {
        AwaitedGranted(cfg, w, o, at);
        assert Marked(w, at, w.ops[o].id);
      } else {
        NewlyMarked(cfg, w, a, at);
      }
    }
  }

  lemma AwaitedGranted(cfg: Config, w: World, o: OpId, at: RankLease)
    requires Inv(cfg, w) && o in w.ops && Awaits(w.ops[o], at)
    ensures at in w.granted && Holds(w.ops[o]) == Some(w.ops[o].id) && w.ops[o].id in w.c.pending
    ensures at.rank < cfg.ranks
  {
    assert OpOk(cfg, w, w.ops[o]);
  }

  lemma NewlyMarked(cfg: Config, w: World, a: Act, at: RankLease)
    requires cfg.Valid() && Enabled(cfg, w, a) && a.Advance? && a.step.Granted? && a.step.at == at && w.writes.Keys <= w.granted
    ensures Marked(Apply(cfg, w, a), at, w.ops[a.o].id)
  {
  }

  // ---- invalidations under way -------------------------------------------------------------

  // The call may still reach its rank: a copy is under way, or someone remembers to make it.
  ghost predicate Called(w: World, e: Entry) { e in w.late || InLedger(w, e) }

  ghost predicate Outstanding(cfg: Config, w: World, pair: Pair) {
    exists r: nat :: r < cfg.ranks && Called(w, Invalidate(r, pair))
  }

  lemma DeliverTakes(w: World, e: Entry, effect: bool, trails: bool, at: RankLease)
    ensures
      var u := Deliver(w, e, effect, trails);
      && (at in u.taken && at !in w.taken ==> at in w.writes && e == Invalidate(at.rank, w.writes[at]))
      && (forall x :: x in u.late ==> x in w.late || x == e)
  {
  }

  lemma StepRanksOnly(cfg: Config, w: World, o: OpId, op: Op, step: Step)
    requires cfg.Valid() && StepEnabled(cfg, w, op, step) && !step.Go? && !step.Replied?
    ensures ApplyStep(cfg, w, o, op, step).taken == w.taken && ApplyStep(cfg, w, o, op, step).late == w.late
  {
  }

  lemma RepliedRanks(cfg: Config, w: World, o: OpId, op: Op, step: Step)
    requires cfg.Valid() && StepEnabled(cfg, w, op, step) && step.Replied?
    ensures
      var e := if op.Calling? then op.work[0] else op.entry;
      var v := ApplyStep(cfg, w, o, op, step);
      var u := Deliver(w, e, step.effect, step.trails);
      e in Owes(op) && v.taken == u.taken && v.late == u.late
  {
    hide Deliver;
  }

  // A lease is revoked only by an invalidation that was outstanding.
  lemma TakenBy(cfg: Config, w: World, a: Act, at: RankLease)
    requires cfg.Valid() && Enabled(cfg, w, a) && at in Apply(cfg, w, a).taken && at !in w.taken
    ensures at in w.writes && Called(w, Invalidate(at.rank, w.writes[at]))
  {
    hide ApplyCall, ApplyStep, ApplyGo, Deliver, Owes;
    match a
    case Outside(e) =>
    case Begin(o, call) => CallShape(cfg, w, o, call);
    case Advance(o, step) =>
      if step.Go? {
        GoRanks(cfg, w, o, w.ops[o], step.token);
        StepGo(cfg, w, o, w.ops[o], step.token);
      } else if step.Replied? {
        RepliedRanks(cfg, w, o, w.ops[o], step);
        var e := if w.ops[o].Calling? then w.ops[o].work[0] else w.ops[o].entry;
        DeliverTakes(w, e, step.effect, step.trails, at);
        assert InLedger(w, e);
      } else {
        StepRanksOnly(cfg, w, o, w.ops[o], step);
      }
  }

  // A copy is under way only of a call someone made.
  lemma LateBy(cfg: Config, w: World, a: Act, e: Entry)
    requires cfg.Valid() && Enabled(cfg, w, a) && e in Apply(cfg, w, a).late
    ensures Called(w, e)
  {
    hide ApplyCall, ApplyStep, ApplyGo, Deliver, Owes, Victims;
    match a
    case Outside(event) =>
    case Begin(o, call) => CallShape(cfg, w, o, call);
    case Advance(o, step) =>
      if step.Go? {
        GoRanks(cfg, w, o, w.ops[o], step.token);
        StepGo(cfg, w, o, w.ops[o], step.token);
      } else if step.Replied? {
        RepliedRanks(cfg, w, o, w.ops[o], step);
        var x := if w.ops[o].Calling? then w.ops[o].work[0] else w.ops[o].entry;
        DeliverTakes(w, x, step.effect, step.trails, At(0, 0));
        assert InLedger(w, x);
      } else {
        StepRanksOnly(cfg, w, o, w.ops[o], step);
      }
  }

  // What an operation owes after a reply it owed before.
  lemma OwesReply(cfg: Config, w: World, o: OpId, op: Op, step: Step, e: Entry)
    requires cfg.Valid() && o in w.ops && w.ops[o] == op && StepEnabled(cfg, w, op, step) && !step.Go?
    ensures e in Owes(ApplyStep(cfg, w, o, op, step).ops[o]) ==> e in Owes(op)
  {
    hide ApplyGo, Deliver;
    if step.Replied? && op.Calling? {
      assert op.work == [op.work[0]] + op.work[1..];
    }
  }

  // A section starts new invalidations only by raising the veto first.
  lemma OwesGo(cfg: Config, w: World, o: OpId, op: Op, token: Token, e: Entry)
    requires cfg.Valid() && o in w.ops && StepEnabled(cfg, w, op, Go(token)) && e.Invalidate?
    ensures
      var v := ApplyGo(cfg, w, o, op, token);
      o in v.ops && e in Owes(v.ops[o]) ==> e in Owes(op) || e in w.c.retry || e.pair in v.c.invalid
  {
    hide ApplyGo, Releases, Invalidations, Rollbacks, RenewOk, RecheckOk, CommitOk, RaiseOk;
    GoNext(cfg, w, o, op, token);
    match op
    case Reserving(id, started, answers) => RollbacksAll(answers, 0);
    case Retiring(t, drop) => ReleasesAll(t, 0);
    case Vetoing(pair, after) => InvalidationsAll(cfg.ranks, pair, 0);
    case _ =>
  }

  lemma OwesCall(cfg: Config, w: World, o: OpId, call: Call)
    requires o !in w.ops
    ensures o in ApplyCall(cfg, w, o, call).ops ==> Owes(ApplyCall(cfg, w, o, call).ops[o]) == []
  {
    hide ApplyCall, Lookup;
    CallBegins(cfg, w, o, call);
  }

  lemma LogGo(cfg: Config, w: World, o: OpId, op: Op, token: Token, e: Entry)
    requires cfg.Valid() && o in w.ops && w.ops[o] == op && StepEnabled(cfg, w, op, Go(token))
    ensures e in ApplyGo(cfg, w, o, op, token).c.retry ==> e in w.c.retry || e in Owes(op)
  {
    hide ApplyFinish, ApplyCommit, ApplyRaise, ApplyRenewCommit, AfterRenew, Releases, RenewOk, RenewCached,
      RecheckOk, AdmitOk, Charge;
    SameLog(cfg, w, o, op, token);
    if op.Settled? { SameLogFinish(cfg, w, o, op.goal, op.acked); }
  }

  // An invalidation appears only under a veto.
  lemma CalledStep(cfg: Config, w: World, a: Act, e: Entry)
    requires cfg.Valid() && Enabled(cfg, w, a) && e.Invalidate? && Called(Apply(cfg, w, a), e)
    ensures Called(w, e) || e.pair in Apply(cfg, w, a).c.invalid
  {
    hide ApplyEvent, ApplyCall, ApplyStep, ApplyGo, Owes;
    var v := Apply(cfg, w, a);
    if e in v.late {
      hide Enabled, Called;
      LateBy(cfg, w, a, e);
    } else {
      match a
      case Outside(event) =>
        EventShape(w, event);
      case Begin(o, call) =>
        CallShape(cfg, w, o, call);
        OwesCall(cfg, w, o, call);
      case Advance(o, step) =>
        if step.Go? {
          AloneGo(cfg, w, o, w.ops[o], step.token);
          StepGo(cfg, w, o, w.ops[o], step.token);
          LogGo(cfg, w, o, w.ops[o], step.token, e);
          OwesGo(cfg, w, o, w.ops[o], step.token, e);
        } else {
          StepAnswers(cfg, w, o, w.ops[o], step);
          OwesReply(cfg, w, o, w.ops[o], step, e);
        }
    }
  }

  lemma QuietStep(cfg: Config, w: World, a: Act, pair: Pair)
    requires cfg.Valid() && Enabled(cfg, w, a) && !Outstanding(cfg, w, pair) && pair !in Apply(cfg, w, a).c.invalid
    ensures !Outstanding(cfg, Apply(cfg, w, a), pair)
  {
    hide Apply, Enabled, Called;
    var v := Apply(cfg, w, a);
    if Outstanding(cfg, v, pair) {
      var r: nat :| r < cfg.ranks && Called(v, Invalidate(r, pair));
      CalledStep(cfg, w, a, Invalidate(r, pair));
    }
  }

  // ---- runs in which no invalidation outlives its veto -------------------------------------

  // Whenever the veto of the pair lifts, no invalidation of it is owed, logged or under way.
  ghost predicate LiftsClean(cfg: Config, ws: seq<World>, pair: Pair) {
    forall i :: 0 <= i < |ws| - 1 && pair in ws[i].c.invalid && pair !in ws[i + 1].c.invalid ==>
      !Outstanding(cfg, ws[i + 1], pair)
  }

  ghost predicate Tidy(cfg: Config, w: World, pair: Pair) {
    pair in w.c.invalid || !Outstanding(cfg, w, pair)
  }

  lemma InitTidy(cfg: Config, pair: Pair)
    ensures Tidy(cfg, Init(), pair) && WritesOk(Init()) && Intact(Init(), pair)
  {
  }

  lemma {:induction false} TidyAlong(cfg: Config, ws: seq<World>, acts: seq<Act>, i: nat, pair: Pair)
    requires cfg.Valid() && Run(cfg, ws, acts) && ws[0] == Init() && i <= |acts| && LiftsClean(cfg, ws, pair)
    ensures Tidy(cfg, ws[i], pair)
  {
    hide Apply, Enabled, Outstanding;
    InitTidy(cfg, pair);
    if i > 0 && pair !in ws[i].c.invalid && pair !in ws[i - 1].c.invalid {
      TidyAlong(cfg, ws, acts, i - 1, pair);
      StepOf(cfg, ws, acts, i - 1);
      QuietStep(cfg, ws[i - 1], acts[i - 1], pair);
    }
  }

  // While the pair is not vetoed, no lease of a ticket or of a reservation for it was revoked.
  ghost predicate Intact(w: World, pair: Pair) {
    pair !in w.c.invalid ==>
    && (forall t, at :: t in w.c.tickets && w.c.tickets[t].pair == pair && Owns(w.c.tickets[t], at) ==> at !in w.taken)
    && (forall o, at :: o in w.ops && Awaits(w.ops[o], at) && w.ops[o].id.pair == pair ==> at !in w.taken)
  }

  // A lease marked for the pair is not revoked while no invalidation of it is outstanding.
  lemma NotTaken(cfg: Config, w: World, a: Act, at: RankLease, id: Identity)
    requires Inv(cfg, w) && WritesOk(w) && Enabled(cfg, w, a) && WritesOk(Apply(cfg, w, a))
    requires !Outstanding(cfg, w, id.pair) && at.rank < cfg.ranks && at !in w.taken && Marked(Apply(cfg, w, a), at, id)
    ensures at !in Apply(cfg, w, a).taken
  {
    hide Apply, Enabled, OpsOk, Apart, PendingOk, TicketsOk, LeasesOk, ValidOk, CreditsOk, LogOk, NothingForgotten, Called;
    var v := Apply(cfg, w, a);
    if at in v.taken {
      TakenBy(cfg, w, a, at);
      RanksStep(cfg, w, a);
    }
  }

  // A lifted veto leaves nothing of the pair behind.
  lemma LiftedIntact(cfg: Config, w: World, a: Act, pair: Pair)
    requires Inv(cfg, w) && Enabled(cfg, w, a) && Inv(cfg, Apply(cfg, w, a))
    requires pair in w.c.invalid && pair !in Apply(cfg, w, a).c.invalid
    ensures Intact(Apply(cfg, w, a), pair)
  {
    hide Enabled, OpsOk, Apart, PendingOk, TicketsOk, LeasesOk, ValidOk, CreditsOk, LogOk, NothingForgotten;
    ForwardStep(cfg, w, a);
    hide Apply;
    var v := Apply(cfg, w, a);
    forall o, at | o in v.ops && Awaits(v.ops[o], at) && v.ops[o].id.pair == pair ensures false {
      AwaitedGranted(cfg, v, o, at);
    }
  }

  lemma TicketIs(cfg: Config, w: World, t: Token)
    requires Inv(cfg, w) && t in w.c.tickets
    ensures w.c.tickets[t] in w.issued && |w.c.tickets[t].leases| == cfg.ranks && w.c.tickets[t].token == t
  {
  }

  lemma IntactStep(cfg: Config, w: World, a: Act, pair: Pair)
    requires Inv(cfg, w) && WritesOk(w) && Enabled(cfg, w, a) && Inv(cfg, Apply(cfg, w, a))
    requires Intact(w, pair) && Tidy(cfg, w, pair)
    ensures Intact(Apply(cfg, w, a), pair)
  {
    hide Apply, Enabled, OpsOk, Apart, PendingOk, TicketsOk, LeasesOk, ValidOk, CreditsOk, LogOk, NothingForgotten,
      Outstanding;
    var v := Apply(cfg, w, a);
    if pair in v.c.invalid {
    } else if pair in w.c.invalid {
      LiftedIntact(cfg, w, a, pair);
    } else {
      WritesStep(cfg, w, a);
      forall t, at | t in v.c.tickets && v.c.tickets[t].pair == pair && Owns(v.c.tickets[t], at) ensures at !in v.taken {
        var k := v.c.tickets[t];
        TicketIs(cfg, v, t);
        TicketIntact(cfg, w, a, t, at);
        assert Marked(v, at, k.Id());
        NotTaken(cfg, w, a, at, k.Id());
      }
      forall o, at | o in v.ops && Awaits(v.ops[o], at) && v.ops[o].id.pair == pair ensures at !in v.taken {
        AwaitedGranted(cfg, v, o, at);
        SeesStep(cfg, w, a, o, at);
        if !Awaits(w.ops[o], at) {
          NewGrant(cfg, w, a);
        }
        assert at !in w.taken;
        assert Marked(v, at, v.ops[o].id);
        NotTaken(cfg, w, a, at, v.ops[o].id);
      }
    }
  }

  lemma NewGrant(cfg: Config, w: World, a: Act)
    requires cfg.Valid() && Enabled(cfg, w, a) && a.Advance? && a.step.Granted?
    ensures a.step.at !in w.granted
  {
  }

  lemma TicketIntact(cfg: Config, w: World, a: Act, t: Token, at: RankLease)
    requires Inv(cfg, w) && WritesOk(w) && Enabled(cfg, w, a) && Inv(cfg, Apply(cfg, w, a))
    requires t in Apply(cfg, w, a).c.tickets && Owns(Apply(cfg, w, a).c.tickets[t], at)
    requires Apply(cfg, w, a).c.tickets[t].pair !in w.c.invalid && Intact(w, Apply(cfg, w, a).c.tickets[t].pair)
    ensures at !in w.taken
  {
    hide Enabled, OpsOk, Apart, PendingOk, TicketsOk, LeasesOk, ValidOk, CreditsOk, LogOk, NothingForgotten;
    ForwardStep(cfg, w, a);
    hide Apply;
    var v := Apply(cfg, w, a);
    var k := v.c.tickets[t];
    TicketIs(cfg, v, t);
    if !(t in w.c.tickets && w.c.tickets[t] == k) {
      IssuedStep(cfg, w, a, k);
      assert Awaits(w.ops[a.o], at) && w.ops[a.o].id.pair == k.pair;
    }
  }

  lemma {:induction false} WritesAlong(cfg: Config, ws: seq<World>, acts: seq<Act>, i: nat)
    requires cfg.Valid() && Run(cfg, ws, acts) && ws[0] == Init() && i <= |acts|
    ensures Inv(cfg, ws[i]) && WritesOk(ws[i])
  {
    hide Apply, Enabled, Inv, WritesOk;
    InitInv(cfg);
    InitTidy(cfg, Pair([], []));
    InvAlong(cfg, ws, acts, i);
    if i > 0 {
      WritesAlong(cfg, ws, acts, i - 1);
      StepOf(cfg, ws, acts, i - 1);
      WritesStep(cfg, ws[i - 1], acts[i - 1]);
    }
  }

  lemma {:induction false} IntactAlong(cfg: Config, ws: seq<World>, acts: seq<Act>, i: nat, pair: Pair)
    requires cfg.Valid() && Run(cfg, ws, acts) && ws[0] == Init() && i <= |acts| && LiftsClean(cfg, ws, pair)
    ensures Intact(ws[i], pair)
  {
    hide Apply, Enabled, Inv, WritesOk, Intact, Tidy, LiftsClean;
    InitTidy(cfg, pair);
    if i > 0 {
      IntactAlong(cfg, ws, acts, i - 1, pair);
      WritesAlong(cfg, ws, acts, i - 1);
      WritesAlong(cfg, ws, acts, i);
      TidyAlong(cfg, ws, acts, i - 1, pair);
      StepOf(cfg, ws, acts, i - 1);
      IntactStep(cfg, ws[i - 1], acts[i - 1], pair);
    }
  }

  // ---- windows ------------------------------------------------------------------------------

  // Rank r holds the ticket's lease beyond this instant, and was not asked to give it up.
  ghost predicate Secure(cfg: Config, w: World, t: Ticket, r: nat, until: real) {
    && |t.leases| == cfg.ranks
    && (r < cfg.ranks ==>
          var at := At(r, t.leases[r]);
          at in w.leases && until + cfg.margin <= w.leases[at] && at !in w.sent)
  }

  lemma WindowAlive(cfg: Config, w: World, t: Ticket, r: nat)
    requires Inv(cfg, w) && t in w.issued && t.token in w.c.valid && r < cfg.ranks
    ensures |t.leases| == cfg.ranks && t.token in w.c.tickets && w.c.tickets[t.token] == t && Owns(t, At(r, t.leases[r]))
    ensures Alive(w, At(r, t.leases[r]), w.c.valid[t.token] + cfg.margin)
    ensures At(r, t.leases[r]) !in w.withdrawn && At(r, t.leases[r]) !in w.sent && Live(w.c, t)
  {
    hide OpsOk, Apart, PendingOk, CreditsOk, LogOk, NothingForgotten;
    assert w.c.tickets[t.token] == t;
    var at := At(r, t.leases[r]);
    assert Owns(t, at) && Live(w.c, t);
  }

  // The step answers an operation's call to release this lease, or its replay.
  ghost predicate Sends(w: World, a: Act, at: RankLease) {
    && a.Advance? && a.step.Replied? && a.o in w.ops
    && var op := w.ops[a.o];
    || (op.Calling? && op.work != [] && op.work[0] == Release(at))
    || (op.Replaying? && op.entry == Release(at))
  }

  /** What is recorded as asked back is exactly what was: a release is recorded as sent when it is called or
      replayed, whatever the answer, and stays so. */
  lemma SentExactly(cfg: Config, w: World, a: Act, at: RankLease)
    requires cfg.Valid() && Enabled(cfg, w, a)
    ensures at in Apply(cfg, w, a).sent <==> at in w.sent || Sends(w, a, at)
  {
    if a.Advance? && a.step.Go? {
      GoRanks(cfg, w, a.o, w.ops[a.o], a.step.token);
      hide ApplyGo;
    }
    hide Revoke;
  }

  /** While the clock is before the recorded window, no release of the ticket's lease has been sent to
      any rank, and a rank holds it beyond the window unless an invalidation has revoked it; reading
      leases are never revoked. */
  lemma WindowSafety(cfg: Config, ws: seq<World>, acts: seq<Act>, i: nat, t: Ticket, r: nat)
    requires cfg.Valid() && Run(cfg, ws, acts) && ws[0] == Init() && i <= |acts|
    requires t in ws[i].issued && t.token in ws[i].c.valid && ws[i].now < ws[i].c.valid[t.token] && r < cfg.ranks
    ensures |t.leases| == cfg.ranks && At(r, t.leases[r]) !in ws[i].sent
    ensures At(r, t.leases[r]) in ws[i].taken || Secure(cfg, ws[i], t, r, ws[i].c.valid[t.token])
    ensures At(r, t.leases[r]) in ws[i].taken ==> t.writing
  {
    hide Apply, Enabled, OpsOk, Apart, PendingOk, TicketsOk, LeasesOk, ValidOk, CreditsOk, LogOk, NothingForgotten;
    WritesAlong(cfg, ws, acts, i);
    WindowAlive(cfg, ws[i], t, r);
    assert Marked(ws[i], At(r, t.leases[r]), t.Id());
  }

  /** Before the deadline that is returned every rank's lease is held, outlasts the deadline by the
      margin and was not asked back: always for reading tickets, and for writing tickets if no
      invalidation of the pair outlives its veto. */
  lemma DeadlineSafety(cfg: Config, ws: seq<World>, acts: seq<Act>, i: nat, t: Ticket, r: nat)
    requires cfg.Valid() && Run(cfg, ws, acts) && ws[0] == Init() && i <= |acts|
    requires !t.writing || LiftsClean(cfg, ws, t.pair)
    requires Deadline(ws[i].c, t).Some? && ws[i].now < Deadline(ws[i].c, t).value && r < cfg.ranks
    ensures Secure(cfg, ws[i], t, r, Deadline(ws[i].c, t).value)
  {
    hide Apply, Enabled, Inv, WritesOk, LiftsClean;
    WritesAlong(cfg, ws, acts, i);
    TicketIs(cfg, ws[i], t.token);
    WindowSafety(cfg, ws, acts, i, t, r);
    if t.writing {
      IntactAlong(cfg, ws, acts, i, t.pair);
      assert Owns(t, At(r, t.leases[r]));
    }
  }

  // A lease relied on is relied on until it is withdrawn.
  lemma {:induction false} AliveAlong(cfg: Config, ws: seq<World>, acts: seq<Act>, i: nat, j: nat, at: RankLease, until: real)
    requires cfg.Valid() && Run(cfg, ws, acts) && ws[0] == Init() && i <= j <= |acts|
    requires Alive(ws[i], at, until) && at !in ws[j].withdrawn
    ensures Alive(ws[j], at, until) && at !in ws[i].withdrawn && ws[i].issued <= ws[j].issued
    decreases j
  {
    hide Apply, Enabled, Inv, Alive;
    if i < j {
      WritesAlong(cfg, ws, acts, j - 1);
      StepOf(cfg, ws, acts, j - 1);
      RanksStep(cfg, ws[j - 1], acts[j - 1]);
      AliveAlong(cfg, ws, acts, i, j - 1, at, until);
      AliveKept(ws[j - 1], ws[j], at, until);
    }
  }

  // A lease that was revoked meanwhile was revoked while its pair was vetoed.
  lemma {:induction false} TakenAlong(cfg: Config, ws: seq<World>, acts: seq<Act>, i: nat, j: nat, at: RankLease, id: Identity)
    returns (k: nat)
    requires cfg.Valid() && Run(cfg, ws, acts) && ws[0] == Init() && i <= j <= |acts| && LiftsClean(cfg, ws, id.pair)
    requires at !in ws[i].taken && at in ws[j].taken && at.rank < cfg.ranks
    requires at in ws[j].writes && ws[j].writes[at] == id.pair && at in ws[i].granted
    ensures i <= k < j && id.pair in ws[k].c.invalid
    decreases j
  {
    hide Apply, Enabled, Inv, LiftsClean;
    WritesAlong(cfg, ws, acts, j - 1);
    StepOf(cfg, ws, acts, j - 1);
    RanksStep(cfg, ws[j - 1], acts[j - 1]);
    GrantedAlong(cfg, ws, acts, i, j - 1, at);
    if at in ws[j - 1].taken {
      k := TakenAlong(cfg, ws, acts, i, j - 1, at, id);
    } else {
      k := j - 1;
      TakenBy(cfg, ws[j - 1], acts[j - 1], at);
      TidyAlong(cfg, ws, acts, j - 1, id.pair);
    }
  }

  lemma {:induction false} GrantedAlong(cfg: Config, ws: seq<World>, acts: seq<Act>, i: nat, j: nat, at: RankLease)
    requires cfg.Valid() && Run(cfg, ws, acts) && ws[0] == Init() && i <= j <= |acts| && at in ws[i].granted
    ensures at in ws[j].granted
    decreases j
  {
    hide Apply, Enabled, Inv;
    if i < j {
      GrantedAlong(cfg, ws, acts, i, j - 1, at);
      WritesAlong(cfg, ws, acts, j - 1);
      StepOf(cfg, ws, acts, j - 1);
      RanksStep(cfg, ws[j - 1], acts[j - 1]);
    }
  }

  lemma IssuedAt(cfg: Config, w: World, t: Ticket, r: nat)
    requires Inv(cfg, w) && WritesOk(w) && t in w.issued && r < |t.leases|
    ensures Marked(w, At(r, t.leases[r]), t.Id()) && At(r, t.leases[r]) in w.granted
    ensures At(r, t.leases[r]) in w.withdrawn <==> !Live(w.c, t)
    ensures At(r, t.leases[r]) in w.sent ==> At(r, t.leases[r]) in w.withdrawn
  {
    assert Owns(t, At(r, t.leases[r]));
  }

  /** A deadline once read is good for every later moment before it: whoever acts then finds every
      rank's lease held and not asked back, unless the ticket was released in between or, for a
      writing ticket, its pair vetoed. */
  lemma DeadlineLasts(cfg: Config, ws: seq<World>, acts: seq<Act>, i: nat, j: nat, t: Ticket, r: nat)
    requires cfg.Valid() && Run(cfg, ws, acts) && ws[0] == Init() && i <= j <= |acts|
    requires !t.writing || LiftsClean(cfg, ws, t.pair)
    requires Deadline(ws[i].c, t).Some? && ws[j].now < Deadline(ws[i].c, t).value && r < cfg.ranks
    ensures
      || Secure(cfg, ws[j], t, r, Deadline(ws[i].c, t).value)
      || !Live(ws[j].c, t)
      || (t.writing && exists k :: i <= k < j && t.pair in ws[k].c.invalid)
  {
    hide Apply, Enabled, Inv, WritesOk, LiftsClean, Alive, Live;
    WritesAlong(cfg, ws, acts, i);
    WritesAlong(cfg, ws, acts, j);
    TicketIs(cfg, ws[i], t.token);
    WindowAlive(cfg, ws[i], t, r);
    IssuedAt(cfg, ws[i], t, r);
    var at, until := At(r, t.leases[r]), ws[i].c.valid[t.token] + cfg.margin;
    IssuedAlong(cfg, ws, acts, i, j, t);
    IssuedAt(cfg, ws[j], t, r);
    if Live(ws[j].c, t) {
      AliveAlong(cfg, ws, acts, i, j, at, until);
      if at in ws[j].taken {
        TakenWrites(ws[j], at);
        IntactAlong(cfg, ws, acts, i, t.pair);
        assert Owns(t, at) && at !in ws[i].taken;
        var k := TakenAlong(cfg, ws, acts, i, j, at, t.Id());
      } else {
        HeldThen(cfg, ws[j], at, until);
      }
    }
  }

  lemma TakenWrites(w: World, at: RankLease)
    requires WritesOk(w) && at in w.taken
    ensures at in w.writes
  {
  }

  lemma HeldThen(cfg: Config, w: World, at: RankLease, until: real)
    requires Alive(w, at, until) && at !in w.taken && w.now < until
    ensures at in w.leases && until <= w.leases[at]
  {
  }

  lemma {:induction false} IssuedAlong(cfg: Config, ws: seq<World>, acts: seq<Act>, i: nat, j: nat, t: Ticket)
    requires cfg.Valid() && Run(cfg, ws, acts) && i <= j <= |acts| && t in ws[i].issued
    ensures t in ws[j].issued
    decreases j
  {
    hide Apply, Enabled;
    if i < j {
      IssuedAlong(cfg, ws, acts, i, j - 1, t);
      StepOf(cfg, ws, acts, j - 1);
      ForwardStep(cfg, ws[j - 1], acts[j - 1]);
    }
  }
}
