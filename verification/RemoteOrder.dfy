/** What one step does to the operations in progress and to the tickets, seen from outside: the basis
    for what holds of runs in which certain operations do not overlap. */
module RemoteOrder {
  import opened Basics
  import opened Coordination
  import opened RemoteProtocol
  import opened RemoteSteps
  import opened RemoteTheorems

  function GoalOf(op: Op): Option<Goal> {
    if op.Calling? || op.Queueing? || op.Draining? || op.Replaying? || op.Requeueing? || op.Settled?
    then Some(op.goal) else None
  }

  // The ticket an operation is renewing, and the reservation it does so for.
  function Renews(op: Op): Option<Ticket> {
    if op.RenewChecking? || op.RenewSending? || op.Renewing? || op.Rechecking? then Some(op.ticket)
    else if GoalOf(op).Some? && GoalOf(op).value.Renewed? then Some(GoalOf(op).value.ticket)
    else None
  }

  function Back(op: Op): Option<Identity> {
    if op.RenewChecking? || op.RenewSending? || op.Renewing? then op.back
    else if op.Rechecking? then Some(op.id)
    else if GoalOf(op).Some? && GoalOf(op).value.Renewed? then GoalOf(op).value.back
    else None
  }

  // A reply moves an operation on without changing what it is about.
  ghost predicate Replies(op: Op, next: Op) {
    && (op.Reserving? ==> next.Reserving? && next.id == op.id)
    && (op.Renewing? ==> next.Renewing? && next.ticket == op.ticket && next.back == op.back)
    && (op.Calling? ==> (next.Calling? || next.Queueing?) && next.goal == op.goal)
    && (op.Replaying? ==> (next.Draining? || next.Requeueing?) && next.goal == op.goal)
    && (next.Calling? ==> op.Calling? && next.acked == op.acked) && (op.Replaying? && next.Draining? ==> next.acked == op.acked)
    && (op.Reserving? || op.Renewing? || op.Calling? || op.Replaying?)
  }

  lemma ReplyFollows(cfg: Config, w: World, o: OpId, op: Op, step: Step)
    requires cfg.Valid() && o in w.ops && w.ops[o] == op && StepEnabled(cfg, w, op, step) && !step.Go?
    ensures o in ApplyStep(cfg, w, o, op, step).ops && Replies(op, ApplyStep(cfg, w, o, op, step).ops[o])
  {
    hide ApplyGo, Deliver;
  }

  // The operation took a step of its own.
  ghost predicate Moved(cfg: Config, w: World, a: Act, x: OpId) {
    && a.Advance? && a.o == x && x in w.ops && cfg.Valid() && Enabled(cfg, w, a) && x in Apply(cfg, w, a).ops
    && var next := Apply(cfg, w, a).ops[x];
       if a.step.Go? then Next(cfg, w, w.ops[x], Apply(cfg, w, a).c, next) else Replies(w.ops[x], next)
  }

  // An operation in progress stayed as it was, moved on, or has just begun.
  lemma StepFollows(cfg: Config, w: World, a: Act, x: OpId)
    requires cfg.Valid() && Enabled(cfg, w, a) && x in Apply(cfg, w, a).ops
    ensures
      || (x in w.ops && Apply(cfg, w, a).ops[x] == w.ops[x])
      || Moved(cfg, w, a, x)
      || (a.Begin? && a.o == x && x !in w.ops)
  {
    hide ApplyEvent, ApplyCall, ApplyStep, ApplyGo, Next, Replies;
    match a
    case Outside(e) => EventShape(w, e);
    case Begin(o, call) => CallShape(cfg, w, o, call);
    case Advance(o, step) =>
      if step.Go? {
        AloneGo(cfg, w, o, w.ops[o], step.token);
        StepGo(cfg, w, o, w.ops[o], step.token);
        GoNext(cfg, w, o, w.ops[o], step.token);
      } else {
        StepAnswers(cfg, w, o, w.ops[o], step);
        ReplyFollows(cfg, w, o, w.ops[o], step);
      }
  }

  // ---- tickets --------------------------------------------------------------------------------------

  // This step makes a reservation a ticket.
  ghost predicate Commits(cfg: Config, w: World, a: Act) {
    && a.Advance? && a.step.Go? && a.o in w.ops && w.ops[a.o].Reserving?
    && var Reserving(id, started, answers) := w.ops[a.o];
       CommitOk(w.c, id.pair, Complete(answers), w.now, started + cfg.ttl - cfg.margin)
  }

  // This step drops a released ticket.
  ghost predicate DropsTicket(w: World, a: Act) {
    && a.Advance? && a.step.Go? && a.o in w.ops
    && w.ops[a.o].Settled? && w.ops[a.o].acked && w.ops[a.o].goal.LetGo? && w.ops[a.o].goal.drop
  }

  function Newest(cfg: Config, w: World, a: Act): Ticket
    requires a.Advance? && a.step.Go? && a.o in w.ops && w.ops[a.o].Reserving? && Complete(w.ops[a.o].answers)
  {
    Minted(cfg, a.step.token, w.ops[a.o].id, w.ops[a.o].answers)
  }

  lemma FinishTickets(cfg: Config, w: World, o: OpId, goal: Goal, acked: bool)
    requires cfg.Valid()
    ensures
      var d := ApplyFinish(cfg, w, o, goal, acked).c;
      if acked && goal.LetGo? && goal.drop then d == Drop(w.c, goal.ticket.token)
      else d.tickets == w.c.tickets && d.identities == w.c.identities && d.retiring == w.c.retiring
  {
    hide Drop, Abandon, Acknowledge;
    match goal
    case GiveUp(id) => VetoBooks(cfg, w.c, id, id.pair);
    case Veto(pair, after) => VetoBooks(cfg, w.c, Identity(pair, [], false), pair);
    case _ =>
  }

  lemma VetoBooks(cfg: Config, c: Coord, id: Identity, pair: Pair)
    ensures
      var d, e := Abandon(cfg, c, id), Acknowledge(c, pair);
      && d.tickets == c.tickets && d.identities == c.identities && d.retiring == c.retiring
      && e.tickets == c.tickets && e.identities == c.identities && e.retiring == c.retiring
  {
    hide Drained, Charge;
  }

  lemma CommitTickets(cfg: Config, w: World, o: OpId, op: Op, token: Token)
    requires cfg.Valid() && op.Reserving?
    ensures
      var d := ApplyGo(cfg, w, o, op, token).c;
      var until := op.started + cfg.ttl - cfg.margin;
      if CommitOk(w.c, op.id.pair, Complete(op.answers), w.now, until)
      then d == Commit(w.c, Minted(cfg, token, op.id, op.answers), until)
      else d == w.c
  {
    hide Rollbacks, SeenLeases, Commit, Minted;
  }

  /** Tickets and identities change only when a reservation is committed or a ticket dropped. */
  lemma TicketsStep(cfg: Config, w: World, a: Act)
    requires cfg.Valid() && Enabled(cfg, w, a)
    ensures
      var d := Apply(cfg, w, a).c;
      if Commits(cfg, w, a) then d == Commit(w.c, Newest(cfg, w, a), w.ops[a.o].started + cfg.ttl - cfg.margin)
      else if DropsTicket(w, a) then d == Drop(w.c, w.ops[a.o].goal.ticket.token)
      else d.tickets == w.c.tickets && d.identities == w.c.identities
  {
    hide ApplyEvent, ApplyCall, ApplyStep, ApplyGo, Commit, Drop;
    match a
    case Outside(e) => EventShape(w, e);
    case Begin(o, call) => CallShape(cfg, w, o, call);
    case Advance(o, step) =>
      if !step.Go? {
        StepAnswers(cfg, w, o, w.ops[o], step);
      } else {
        StepGo(cfg, w, o, w.ops[o], step.token);
        if w.ops[o].Reserving? {
          CommitTickets(cfg, w, o, w.ops[o], step.token);
        } else if w.ops[o].Settled? {
          FinishTickets(cfg, w, o, w.ops[o].goal, w.ops[o].acked);
          GoSettled(cfg, w, o, w.ops[o], step.token);
        } else {
          TameGo(cfg, w, o, w.ops[o], step.token);
        }
      }
  }

  // Only a release marks a ticket as retiring.
  lemma RetiringStep(cfg: Config, w: World, a: Act, t: Token)
    requires cfg.Valid() && Enabled(cfg, w, a) && t in Apply(cfg, w, a).c.retiring && t !in w.c.retiring
    ensures a.Advance? && a.step.Go? && a.o in w.ops && w.ops[a.o].Retiring? && w.ops[a.o].ticket.token == t
    ensures t in w.c.tickets
  {
    hide ApplyEvent, ApplyCall, ApplyStep, ApplyGo;
    match a
    case Outside(e) => EventShape(w, e);
    case Begin(o, call) => CallShape(cfg, w, o, call);
    case Advance(o, step) =>
      if !step.Go? {
        StepAnswers(cfg, w, o, w.ops[o], step);
      } else {
        StepGo(cfg, w, o, w.ops[o], step.token);
        RetiringGo(cfg, w, o, w.ops[o], step.token);
      }
  }

  lemma RetiringGo(cfg: Config, w: World, o: OpId, op: Op, token: Token)
    requires cfg.Valid() && o in w.ops && StepEnabled(cfg, w, op, Go(token))
    ensures
      var d := ApplyGo(cfg, w, o, op, token).c;
      if op.Retiring? then d == Retire(w.c, op.ticket.token) else d.retiring <= w.c.retiring
  {
    hide ApplyGo;
    if op.Reserving? {
      CommitTickets(cfg, w, o, op, token);
    } else if op.Settled? {
      FinishTickets(cfg, w, o, op.goal, op.acked);
      GoSettled(cfg, w, o, op, token);
      DropShape(w.c, if op.goal.LetGo? then op.goal.ticket.token else 0);
    } else if op.Retiring? {
      RetireGo(cfg, w, o, op, token);
    } else {
      MarksGo(cfg, w, o, op, token);
    }
  }

  lemma RetireGo(cfg: Config, w: World, o: OpId, op: Op, token: Token)
    requires cfg.Valid() && op.Retiring?
    ensures ApplyGo(cfg, w, o, op, token).c == Retire(w.c, op.ticket.token)
  {
    hide Releases, LeaseSet, Retire;
  }

  // ---- marks ------------------------------------------------------------------------------------

  ghost predicate SameMarks(c: Coord, d: Coord) {
    d.retiring == c.retiring && d.invalid == c.invalid && d.acked == c.acked
  }

  // Most sections leave the marks of tickets and pairs alone; an invalidation raises its veto.
  lemma MarksGo(cfg: Config, w: World, o: OpId, op: Op, token: Token)
    requires cfg.Valid() && o in w.ops && StepEnabled(cfg, w, op, Go(token))
    requires !op.Reserving? && !op.Settled? && !op.Retiring?
    ensures
      var d := ApplyGo(cfg, w, o, op, token).c;
      if op.Vetoing? then d == Raise(cfg, w.c, op.pair) else SameMarks(w.c, d)
  {
    hide ApplyAdmit, ApplyStart, ApplyRecheck, ApplyDrain, ApplyPop, ApplyQueue, ApplyRequeue, ApplyRetire,
      ApplyRaise, ApplyRenewCheck, ApplyRenewSend, ApplyRenewCommit, ApplyCommit, ApplyFinish;
    match op
    case Admitting(id) => ReserveMarks(cfg, w, o, Ticket(0, id.pair, [], [], [], false), id);
    case Starting(id) => ReserveMarks(cfg, w, o, Ticket(0, id.pair, [], [], [], false), id);
    case Rechecking(t, id) => ReserveMarks(cfg, w, o, t, id);
    case Calling(goal, work, acked) => CleanMarks(cfg, w, o, goal, acked, 0, work, Release(At(0, 0)));
    case Queueing(goal, work, e) => CleanMarks(cfg, w, o, goal, false, 0, work, e);
    case Draining(goal, acked, budget) => CleanMarks(cfg, w, o, goal, acked, budget, [], Release(At(0, 0)));
    case Requeueing(goal, e) => CleanMarks(cfg, w, o, goal, false, 0, [], e);
    case Vetoing(pair, after) => RaiseMarks(cfg, w, o, pair, after);
    case RenewChecking(t, back) => RenewMarks(cfg, w, o, t, back, 0.0, []);
    case RenewSending(t, back) => RenewMarks(cfg, w, o, t, back, 0.0, []);
    case Renewing(t, back, started, replies) => RenewMarks(cfg, w, o, t, back, started, replies);
  }

  // The books of a world whose operations alone were changed.
  lemma SameC()
    ensures forall w: World, o: OpId, op: Op :: Put(w, o, op).c == w.c
    ensures forall w: World, o: OpId :: End(w, o).c == w.c
  {
  }

  lemma ReserveMarks(cfg: Config, w: World, o: OpId, t: Ticket, id: Identity)
    ensures SameMarks(w.c, ApplyAdmit(cfg, w, o, id).c)
    ensures SameMarks(w.c, ApplyStart(cfg, w, o, id).c)
    ensures SameMarks(w.c, ApplyRecheck(w, o, t, id).c)
  {
    hide AdmitOk, Charge, RecheckOk, Put, End;
    SameC();
  }

  lemma CleanMarks(cfg: Config, w: World, o: OpId, goal: Goal, acked: bool, budget: nat, work: seq<Entry>, e: Entry)
    requires 0 < cfg.retryCap
    ensures SameMarks(w.c, ApplyDrain(cfg, w, o, goal, acked).c)
    ensures SameMarks(w.c, ApplyPop(w, o, goal, acked, budget).c)
    ensures SameMarks(w.c, ApplyQueue(cfg, w, o, goal, work, e).c)
    ensures SameMarks(w.c, ApplyRequeue(cfg, w, o, goal, e).c)
  {
    hide Put, End, Replay;
    SameC();
    assert SameMarks(w.c, Replay(cfg, w.c, e)) by { ReplayMarks(cfg, w.c, e); }
  }

  lemma ReplayMarks(cfg: Config, c: Coord, e: Entry)
    requires 0 < cfg.retryCap
    ensures SameMarks(c, Replay(cfg, c, e))
  {
  }

  lemma RaiseMarks(cfg: Config, w: World, o: OpId, pair: Pair, after: Option<Ticket>)
    requires cfg.Valid()
    ensures ApplyRaise(cfg, w, o, pair, after).c == Raise(cfg, w.c, pair)
  {
    hide RaiseOk, Invalidations, Put, End, Raise;
    SameC();
  }

  lemma RenewMarks(cfg: Config, w: World, o: OpId, t: Ticket, back: Option<Identity>, started: real, replies: seq<Reply>)
    ensures SameMarks(w.c, ApplyRenewCheck(w, o, t, back).c)
    ensures SameMarks(w.c, ApplyRenewSend(cfg, w, o, t, back).c)
    ensures SameMarks(w.c, ApplyRenewCommit(cfg, w, o, t, back, started, replies).c)
  {
    hide RenewOk, RenewCached, RenewCommitOk, Put, End;
    SameC();
  }

  // ---- vetoes -------------------------------------------------------------------------------------

  // The pair whose veto this step tries to lift: every operation that ends a ticket, a reservation or
  // an invalidation does so for its pair.
  function Clears(w: World, a: Act): Option<Pair> {
    if !(a.Advance? && a.step.Go? && a.o in w.ops && w.ops[a.o].Settled?) then None else
      match w.ops[a.o].goal
      case GiveUp(id) => Some(id.pair)
      case LetGo(t, drop) =>
        if w.ops[a.o].acked && drop && t.token in w.c.tickets then Some(w.c.tickets[t.token].pair) else None
      case Veto(pair, _) => if w.ops[a.o].acked then Some(pair) else None
      case Renewed(_, _, _) => None
  }

  // This step records that every rank acknowledged an invalidation of the pair.
  predicate Acks(w: World, a: Act, pair: Pair) {
    && a.Advance? && a.step.Go? && a.o in w.ops && w.ops[a.o].Settled? && w.ops[a.o].acked
    && w.ops[a.o].goal.Veto? && w.ops[a.o].goal.pair == pair
  }

  // This step raises the veto.
  predicate Raising(cfg: Config, w: World, a: Act, pair: Pair) {
    && a.Advance? && a.step.Go? && a.o in w.ops && w.ops[a.o].Vetoing? && w.ops[a.o].pair == pair
    && RaiseOk(cfg, w.c, pair)
  }

  // What lifting does to a pair's marks.
  lemma ClearMarks(c: Coord, p: Pair, q: Pair)
    ensures
      var d := ClearVeto(c, p);
      && (Drained(d, q) <==> Drained(c, q))
      && (q in d.invalid <==> q in c.invalid && !(q == p && p in c.acked && Drained(d, q)))
      && (q in d.acked <==> q in c.acked && !(q == p && Drained(d, q)))
  {
  }

  lemma DropMarks(c: Coord, t: Token, q: Pair)
    ensures
      var d := Drop(c, t);
      var here := t in c.tickets && c.tickets[t].pair == q;
      && (q in d.invalid <==> q in c.invalid && !(here && q in c.acked && Drained(d, q)))
      && (q in d.acked <==> q in c.acked && !(here && Drained(d, q)))
  {
    hide MaxOf, ClearVeto, Drained;
    if t in c.tickets {
      var k := c.tickets[t];
      var d := c.(tickets := c.tickets - {t}, identities := c.identities - {k.Id()},
                  retiring := c.retiring - {t}, bytes := c.bytes - MaxOf(k.sizes));
      ClearMarks(d, k.pair, q);
    }
  }

  lemma FinishMarks(cfg: Config, w: World, o: OpId, op: Op, a: Act, q: Pair)
    requires cfg.Valid() && o in w.ops && w.ops[o] == op && op.Settled? && a.Advance? && a.o == o && a.step.Go?
    ensures
      var d := ApplyFinish(cfg, w, o, op.goal, op.acked).c;
      && (q in d.invalid <==>
            q in w.c.invalid && !(Clears(w, a) == Some(q) && (q in w.c.acked || Acks(w, a, q)) && Drained(d, q)))
      && (q in d.acked <==>
            (q in w.c.acked || Acks(w, a, q)) && !(Clears(w, a) == Some(q) && Drained(d, q)))
  {
    hide Put, End, AfterRenew, Drop, ClearVeto, Charge, Drained;
    SameC();
    match op.goal
    case GiveUp(id) =>
      ClearMarks(w.c.(pending := w.c.pending - {id}, bytes := w.c.bytes - Charge(cfg, id)), id.pair, q);
    case LetGo(t, drop) => DropMarks(w.c, t.token, q);
    case Veto(pair, after) => ClearMarks(w.c.(acked := w.c.acked + {pair}), pair, q);
    case Renewed(ok, t, back) => AfterC(w, o, ok, t, back);
  }

  lemma AfterC(w: World, o: OpId, ok: bool, t: Ticket, back: Option<Identity>)
    ensures AfterRenew(w, o, ok, t, back).c == w.c
  {
    hide Put, End;
    SameC();
  }

  /** The marks of a pair after a step, exactly. */
  lemma MarksStep(cfg: Config, w: World, a: Act, q: Pair)
    requires cfg.Valid() && Enabled(cfg, w, a)
    ensures
      var d := Apply(cfg, w, a).c;
      && (q in d.invalid <==>
            || Raising(cfg, w, a, q)
            || (q in w.c.invalid && !(Clears(w, a) == Some(q) && (q in w.c.acked || Acks(w, a, q)) && Drained(d, q))))
      && (q in d.acked <==>
            (q in w.c.acked || Acks(w, a, q)) && !(Clears(w, a) == Some(q) && Drained(d, q)))
  {
    hide ApplyEvent, ApplyCall, ApplyStep, ApplyGo, Drained, RaiseOk;
    match a
    case Outside(e) => EventShape(w, e);
    case Begin(o, call) => CallShape(cfg, w, o, call);
    case Advance(o, step) =>
      if !step.Go? {
        StepAnswers(cfg, w, o, w.ops[o], step);
      } else {
        StepGo(cfg, w, o, w.ops[o], step.token);
        MarksSection(cfg, w, a, q);
      }
  }

  lemma MarksSection(cfg: Config, w: World, a: Act, q: Pair)
    requires cfg.Valid() && a.Advance? && a.step.Go? && a.o in w.ops && StepEnabled(cfg, w, w.ops[a.o], a.step)
    ensures
      var d := ApplyGo(cfg, w, a.o, w.ops[a.o], a.step.token).c;
      && (q in d.invalid <==>
            || Raising(cfg, w, a, q)
            || (q in w.c.invalid && !(Clears(w, a) == Some(q) && (q in w.c.acked || Acks(w, a, q)) && Drained(d, q))))
      && (q in d.acked <==>
            (q in w.c.acked || Acks(w, a, q)) && !(Clears(w, a) == Some(q) && Drained(d, q)))
  {
    hide ApplyGo, Drained, Retire, Commit, RaiseOk;
    var o, op := a.o, w.ops[a.o];
    if op.Reserving? {
      CommitTickets(cfg, w, o, op, a.step.token);
      assert forall t, until :: Commit(w.c, t, until).invalid == w.c.invalid && Commit(w.c, t, until).acked == w.c.acked by {
        CommitMarks(w.c);
      }
    } else if op.Settled? {
      GoSettled(cfg, w, o, op, a.step.token);
      FinishMarks(cfg, w, o, op, a, q);
    } else if op.Retiring? {
      RetireGo(cfg, w, o, op, a.step.token);
      RetireMarks(w.c, op.ticket.token);
    } else {
      MarksGo(cfg, w, o, op, a.step.token);
    }
  }

  lemma CommitMarks(c: Coord)
    ensures forall t, until :: Commit(c, t, until).invalid == c.invalid && Commit(c, t, until).acked == c.acked
  {
  }

  lemma RetireMarks(c: Coord, t: Token)
    ensures Retire(c, t).invalid == c.invalid && Retire(c, t).acked == c.acked
  {
  }
}
