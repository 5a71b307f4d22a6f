/** The cleanup ledger of the remote coordinator: nothing leaves it unacknowledged, and a lost
    receipt closes the coordinator for good. */
module RemoteLedger {
  import opened Coordination
  import opened RemoteProtocol
  import opened RemoteInvariant
  import opened RemoteSteps
  import opened RemoteTheorems

  // This step is a rank's acknowledgement of cleanup call `e`, direct or replayed.
  ghost predicate AckOf(w: World, a: Act, e: Entry) {
    && a.Advance? && a.step.Replied? && a.step.ack && a.o in w.ops
    && match w.ops[a.o]
       case Calling(_, work, _) => work != [] && work[0] == e
       case Replaying(_, _, _, x) => x == e
       case _ => false
  }

  lemma LogAfterReplay(cfg: Config, c: Coord, x: Entry, e: Entry)
    requires cfg.Valid() && (e in c.retry || e == x) && !Replay(cfg, c, x).lost
    ensures e in Replay(cfg, c, x).retry
  {
  }

  // The calls an operation owes stay in the ledger when it takes its next step.
  lemma OwnCallsKept(cfg: Config, w: World, o: OpId, step: Step, e: Entry)
    requires cfg.Valid() && o in w.ops && StepEnabled(cfg, w, w.ops[o], step) && e in Owes(w.ops[o])
    requires !AckOf(w, Advance(o, step), e)
    requires !ApplyStep(cfg, w, o, w.ops[o], step).c.lost
    ensures InLedger(ApplyStep(cfg, w, o, w.ops[o], step), e)
  {
    var op := w.ops[o];
    var v := ApplyStep(cfg, w, o, op, step);
    match op
    case Calling(goal, work, acked) =>
      assert step.Replied?;
      assert work == [work[0]] + work[1..];
      assert o in v.ops && e in Owes(v.ops[o]);
    case Queueing(goal, work, x) =>
      if e == x {
        LogAfterReplay(cfg, w.c, x, e);
      } else {
        assert o in v.ops && e in Owes(v.ops[o]);
      }
    case Replaying(goal, acked, budget, x) => assert o in v.ops && e in Owes(v.ops[o]);
    case Requeueing(goal, x) => LogAfterReplay(cfg, w.c, x, e);
  }

  // Logged calls stay logged, or move to the operation that replays them.
  lemma LogKept(cfg: Config, w: World, o: OpId, op: Op, token: Token, e: Entry)
    requires cfg.Valid() && o in w.ops && w.ops[o] == op && StepEnabled(cfg, w, op, Go(token)) && e in w.c.retry
    requires !ApplyGo(cfg, w, o, op, token).c.lost
    ensures InLedger(ApplyGo(cfg, w, o, op, token), e)
  {
    hide ApplyFinish, ApplyCommit, ApplyRaise, ApplyRenewCommit, AfterRenew, Replay, Releases, RenewOk, RenewCached,
      RecheckOk, AdmitOk, Charge;
    SameLog(cfg, w, o, op, token);
    if op.Settled? { SameLogFinish(cfg, w, o, op.goal, op.acked); }
    var v := ApplyGo(cfg, w, o, op, token);
    if op.Queueing? || op.Requeueing? {
      LogAfterReplay(cfg, w.c, op.entry, e);
    } else if op.Draining? {
      if op.budget > 0 && e == w.c.retry[0] {
        assert o in v.ops && e in Owes(v.ops[o]);
      }
    }
  }

  // A logged call stays in the ledger.
  lemma LoggedStep(cfg: Config, w: World, a: Act, e: Entry)
    requires cfg.Valid() && Enabled(cfg, w, a) && e in w.c.retry && !Apply(cfg, w, a).c.lost
    ensures InLedger(Apply(cfg, w, a), e)
  {
    hide ApplyGo;
    if a.Advance? && a.step.Go? {
      LogKept(cfg, w, a.o, w.ops[a.o], a.step.token, e);
    } else if a.Advance? {
      RepliesKeepLog(cfg, w, a.o, w.ops[a.o], a.step);
    } else if a.Begin? {
      CallsKeepLog(cfg, w, a.o, a.call);
    }
  }

  lemma RepliesKeepLog(cfg: Config, w: World, o: OpId, op: Op, step: Step)
    requires cfg.Valid() && StepEnabled(cfg, w, op, step) && !step.Go?
    ensures ApplyStep(cfg, w, o, op, step).c == w.c
  {
    hide ApplyGo;
  }

  lemma CallsKeepLog(cfg: Config, w: World, o: OpId, call: Call)
    ensures ApplyCall(cfg, w, o, call).c == w.c
  {
    hide Lookup, Known;
  }

  // A call that an operation owes stays in the ledger, unless it is acknowledged.
  lemma OwedStep(cfg: Config, w: World, a: Act, o: OpId, e: Entry)
    requires cfg.Valid() && Enabled(cfg, w, a) && o in w.ops && e in Owes(w.ops[o]) && w.ops.Keys <= w.used
    requires !AckOf(w, a, e) && !Apply(cfg, w, a).c.lost
    ensures InLedger(Apply(cfg, w, a), e)
  {
    hide AckOf, ApplyStep, ApplyCall, ApplyEvent, StepEnabled, CallEnabled, EventEnabled;
    if a.Advance? && a.o == o {
      OwnCallsKept(cfg, w, o, a.step, e);
    } else {
      OthersStay(cfg, w, a, o);
    }
  }

  lemma LedgerStep(cfg: Config, w: World, a: Act, e: Entry)
    requires cfg.Valid() && Enabled(cfg, w, a) && InLedger(w, e) && w.ops.Keys <= w.used
    requires !AckOf(w, a, e) && !Apply(cfg, w, a).c.lost
    ensures InLedger(Apply(cfg, w, a), e)
  {
    hide AckOf, Apply, Enabled;
    if e in w.c.retry {
      LoggedStep(cfg, w, a, e);
    } else {
      var o :| o in w.ops && e in Owes(w.ops[o]);
      OwedStep(cfg, w, a, o, e);
    }
  }

  /** A cleanup call that some rank did not acknowledge stays in the replay log, or with the
      operation making or replaying it, until a rank acknowledges it or a receipt is lost. */
  lemma {:induction false} LedgerPersists(cfg: Config, ws: seq<World>, acts: seq<Act>, i: nat, j: nat, e: Entry)
    requires cfg.Valid() && Run(cfg, ws, acts) && ws[0] == Init() && i <= j <= |acts|
    requires InLedger(ws[i], e)
    ensures InLedger(ws[j], e) || ws[j].c.lost || exists k :: i <= k < j && AckOf(ws[k], acts[k], e)
    decreases j
  {
    hide Enabled, Apply, AckOf, InLedger, Apart, PendingOk, TicketsOk, LeasesOk, ValidOk, CreditsOk, LogOk,
      NothingForgotten, Onward;
    if i < j {
      LedgerPersists(cfg, ws, acts, i, j - 1, e);
      StepOf(cfg, ws, acts, j - 1);
      InitInv(cfg);
      InvAlong(cfg, ws, acts, j - 1);
      if ws[j - 1].c.lost {
        ForwardStep(cfg, ws[j - 1], acts[j - 1]);
        LostKept(ws[j - 1], ws[j]);
      } else if InLedger(ws[j - 1], e) && !AckOf(ws[j - 1], acts[j - 1], e) && !ws[j].c.lost {
        LedgerStep(cfg, ws[j - 1], acts[j - 1], e);
      }
    }
  }

  lemma LostKept(w: World, v: World)
    requires Forward(w, v)
    ensures (w.c.lost ==> v.c.lost) && (w.c.closed ==> v.c.closed)
  {
  }

  /** With no operation in progress, every lease that was given up but that its rank still
      holds is in the replay log, or a receipt was lost. */
  lemma QuiescentLedger(cfg: Config, w: World, at: RankLease)
    requires cfg.Valid() && Reachable(cfg, w) && w.ops == map[]
    requires at in w.withdrawn && at in w.leases
    ensures Release(at) in w.c.retry || w.c.lost
  {
    ReachableInv(cfg, w);
  }

  // ---- after a lost receipt ---------------------------------------------------

  // The operation has checked the replay log and found every call acknowledged.
  predicate Past(w: World, o: OpId) {
    o in w.ops && w.ops[o].Settled? && w.ops[o].acked
  }

  // This step reports a release, an invalidation or a completed store as acknowledged.
  predicate ReportsSuccess(w: World, a: Act) {
    && a.Advance? && a.step.Go? && Past(w, a.o)
    && match w.ops[a.o].goal
       case LetGo(_, drop) => true
       case Veto(_, after) => after.None?
       case _ => false
  }

  lemma PastGo(cfg: Config, w: World, o: OpId, op: Op, token: Token)
    requires cfg.Valid() && o in w.ops && w.ops[o] == op && StepEnabled(cfg, w, op, Go(token)) && w.c.lost
    ensures !Past(ApplyGo(cfg, w, o, op, token), o)
  {
    hide Releases, Invalidations, Rollbacks, RenewOk, RenewCached, RecheckOk, RenewCommitOk, AdmitOk, RaiseOk, Charge,
      Minted, Drained, Drop, Abandon, Acknowledge, Commit, Replay, Retire, Raise;
  }

  // No further operation gets past the check, and tickets leave only through those that did.
  lemma LostStep(cfg: Config, w: World, a: Act)
    requires Inv(cfg, w) && Enabled(cfg, w, a) && w.c.lost
    ensures
      var v := Apply(cfg, w, a);
      && v.c.lost && v.c.closed
      && (forall o :: Past(v, o) ==> Past(w, o) && v.ops[o] == w.ops[o])
  {
    hide OpsOk, Apart, PendingOk, TicketsOk, LeasesOk, ValidOk, CreditsOk, NothingForgotten, ApplyGo, Onward,
      ApplyCall, ApplyEvent;
    var v := Apply(cfg, w, a);
    ForwardStep(cfg, w, a);
    LostKept(w, v);
    forall o | Past(v, o) ensures Past(w, o) && v.ops[o] == w.ops[o] {
      if a.Outside? {
        EventShape(w, a.event);
      } else {
        AloneStep(cfg, w, a, a.o);
        if o == a.o {
          if a.Advance? && a.step.Go? {
            PastGo(cfg, w, o, w.ops[o], a.step.token);
          } else if a.Begin? {
            NotPast(cfg, w, o, a.call);
          }
        }
      }
    }
  }

  lemma NotPast(cfg: Config, w: World, o: OpId, call: Call)
    ensures !Past(ApplyCall(cfg, w, o, call), o)
  {
  }

  // Tickets leave only through an operation that is past the check.
  ghost predicate Leaves(w: World, v: World) {
    && v.c.tickets.Keys <= w.c.tickets.Keys
    && forall x :: x in w.c.tickets && x !in v.c.tickets ==>
         exists o, k :: Past(w, o) && w.ops[o].goal == LetGo(k, true) && k.token == x
  }

  lemma LeavesFinish(cfg: Config, w: World, o: OpId, goal: Goal, acked: bool)
    requires cfg.Valid() && o in w.ops && w.ops[o] == Settled(goal, acked)
    ensures Leaves(w, ApplyFinish(cfg, w, o, goal, acked))
  {
    hide Drained, Charge;
    match goal
    case LetGo(t, drop) =>
      DropShape(w.c, t.token);
      assert acked && drop ==> Past(w, o) && w.ops[o].goal == LetGo(t, true);
    case _ =>
  }

  lemma LeavesStep(cfg: Config, w: World, a: Act)
    requires cfg.Valid() && Enabled(cfg, w, a) && w.c.closed
    ensures Leaves(w, Apply(cfg, w, a))
  {
    hide ApplyGo, ApplyFinish, Leaves;
    if a.Advance? && a.step.Go? {
      var op := w.ops[a.o];
      if op.Settled? {
        LeavesFinish(cfg, w, a.o, op.goal, op.acked);
        GoSettled(cfg, w, a.o, op, a.step.token);
      } else {
        SameTickets(cfg, w, a.o, op, a.step.token);
        Stays(w, ApplyGo(cfg, w, a.o, op, a.step.token));
      }
    } else {
      Stays(w, Apply(cfg, w, a));
    }
  }

  lemma Stays(w: World, v: World)
    requires v.c.tickets == w.c.tickets
    ensures Leaves(w, v)
  {
  }

  lemma SameTickets(cfg: Config, w: World, o: OpId, op: Op, token: Token)
    requires cfg.Valid() && o in w.ops && StepEnabled(cfg, w, op, Go(token)) && !op.Settled? && w.c.closed
    ensures ApplyGo(cfg, w, o, op, token).c.tickets == w.c.tickets
  {
    if !op.Reserving? {
      TameGo(cfg, w, o, op, token);
      hide ApplyGo;
    }
  }

  /** Once a receipt is lost the coordinator is closed for good. No operation that had not yet
      passed its check of the replay log ever passes it, so none of them reports success, and a
      ticket leaves the books only through an operation that was already past the check. */
  lemma {:induction false} LostIsForever(cfg: Config, ws: seq<World>, acts: seq<Act>, i: nat, j: nat)
    requires cfg.Valid() && Run(cfg, ws, acts) && ws[0] == Init() && i <= j <= |acts| && ws[i].c.lost
    ensures ws[j].c.lost && ws[j].c.closed
    ensures forall o :: Past(ws[j], o) ==> Past(ws[i], o) && ws[j].ops[o] == ws[i].ops[o]
    ensures j < |acts| && ReportsSuccess(ws[j], acts[j]) ==> Past(ws[i], acts[j].o)
    ensures Leaves(ws[i], ws[j])
    decreases j
  {
    hide Enabled, Apply, Apart, PendingOk, TicketsOk, LeasesOk, ValidOk, CreditsOk, OpsOk, NothingForgotten;
    InitInv(cfg);
    if i < j {
      LostIsForever(cfg, ws, acts, i, j - 1);
      StepOf(cfg, ws, acts, j - 1);
      InvAlong(cfg, ws, acts, j - 1);
      LostStep(cfg, ws[j - 1], acts[j - 1]);
      LeavesStep(cfg, ws[j - 1], acts[j - 1]);
      LeavesTwice(ws[i], ws[j - 1], ws[j]);
    } else {
      InvAlong(cfg, ws, acts, j);
    }
  }

  lemma LeavesTwice(u: World, v: World, w: World)
    requires Leaves(u, v) && Leaves(v, w)
    requires forall o :: Past(v, o) ==> Past(u, o) && v.ops[o] == u.ops[o]
    ensures Leaves(u, w)
  {
    forall x | x in u.c.tickets && x !in w.c.tickets
      ensures exists o, k :: Past(u, o) && u.ops[o].goal == LetGo(k, true) && k.token == x
    {
      if x in v.c.tickets {
        var o, k :| Past(v, o) && v.ops[o].goal == LetGo(k, true) && k.token == x;
        assert Past(u, o) && u.ops[o].goal == LetGo(k, true);
      }
    }
  }
}