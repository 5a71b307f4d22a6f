/** The remote coordinator as a machine over its critical sections. Any number of
    operations are in progress at once; every step is one critical section, one reply
    from a rank, or something that happens at a rank or to the clock. */
module RemoteProtocol {
  import opened Basics
  import opened Coordination

  type OpId = nat

  datatype Answer = Waiting | Missing | Got(lease: Lease)
  datatype Reply = Unknown | No | Yes

  // Why the cleanup calls of an operation are made, and so how it ends.
  datatype Goal =
    | GiveUp(id: Identity)                          // a reservation that failed
    | LetGo(ticket: Ticket, drop: bool)             // a release
    | Veto(pair: Pair, after: Option<Ticket>)       // an invalidation, perhaps for complete_store
    | Renewed(ok: bool, ticket: Ticket, back: Option<Identity>)

  // An operation between two of its steps.
  datatype Op =
    | Admitting(id: Identity)
    | Starting(id: Identity)
    | Reserving(id: Identity, started: real, answers: seq<Answer>)
    | Calling(goal: Goal, work: seq<Entry>, acked: bool)
    | Queueing(goal: Goal, work: seq<Entry>, entry: Entry)
    | Draining(goal: Goal, acked: bool, budget: nat)
    | Replaying(goal: Goal, acked: bool, budget: nat, entry: Entry)
    | Requeueing(goal: Goal, entry: Entry)
    | Settled(goal: Goal, acked: bool)
    | Retiring(ticket: Ticket, drop: bool)
    | Vetoing(pair: Pair, after: Option<Ticket>)
    | RenewChecking(ticket: Ticket, back: Option<Identity>)
    | RenewSending(ticket: Ticket, back: Option<Identity>)
    | Renewing(ticket: Ticket, back: Option<Identity>, started: real, replies: seq<Reply>)
    | Rechecking(ticket: Ticket, id: Identity)

  datatype World = World(
    c: Coord,
    now: real,
    leases: map<RankLease, real>,   // what the ranks hold, with expiry
    granted: set<RankLease>,        // every lease a rank ever granted
    writes: map<RankLease, Pair>,   // the writing ones, and what they write
    taken: set<RankLease>,          // leases an invalidation has revoked
    late: set<Entry>,               // invalidations of which a copy may still arrive
    sent: set<RankLease>,           // leases some release call has been sent for
    withdrawn: set<RankLease>,      // leases the coordinator has stopped relying on
    issued: set<Ticket>,            // every ticket ever handed out
    origin: map<Token, OpId>,       // the reservation each ticket came from
    used: set<OpId>,
    ops: map<OpId, Op>)

  function Init(): World {
    World(Empty(), 0.0, map[], {}, map[], {}, {}, {}, {}, {}, map[], {}, map[])
  }

  // What happens outside: the clock, the ranks, and calls the transport delivers late.
  datatype Event =
    | Tick(d: real)
    | Close
    | Drops(at: RankLease)
    | Expires(at: RankLease)
    | Extends(at: RankLease, expiry: real)
    | Grants(at: RankLease, expiry: real, writing: Option<Pair>)
    | Arrives(rank: nat, pair: Pair, last: bool)     // a copy of an invalidation that was under way

  datatype Call =
    | Reserve(id: Identity, sizes: seq<nat>)
    | GiveBack(ticket: Ticket)
    | Quarantine(pair: Pair)
    | CompleteStore(ticket: Ticket, durable: bool)
    | Renew(ticket: Ticket)

  // A rank's answer to the call an operation is waiting for, or its next critical section.
  datatype Step =
    | Granted(at: RankLease, expiry: real, seen: bool)
    | Denied(rank: nat)
    | Replied(ack: bool, effect: bool, trails: bool)   // trails: a copy of the call is still under way
    | RenewReplied(rank: nat, ok: bool, effect: bool, expiry: real)
    | Go(token: Token)

  datatype Act = Outside(event: Event) | Begin(o: OpId, call: Call) | Advance(o: OpId, step: Step)

  // ---- helpers ----------------------------------------------------------------

  predicate InvalidateWellFormed(pair: Pair) {
    WellFormed(Identity(pair, [], false))
  }

  function Releases(leases: seq<Lease>, from: nat): seq<Entry>
    requires from <= |leases|
    decreases |leases| - from
  {
    if from == |leases| then []
    else [Release(At(from, leases[from]))] + Releases(leases, from + 1)
  }

  // Roll back every lease that was seen; ranks without one are skipped.
  function Rollbacks(answers: seq<Answer>, from: nat): seq<Entry>
    requires from <= |answers|
    decreases |answers| - from
  {
    if from == |answers| then []
    else (if answers[from].Got? then [Release(At(from, answers[from].lease))] else [])
         + Rollbacks(answers, from + 1)
  }

  function Invalidations(ranks: nat, pair: Pair, from: nat): seq<Entry>
    requires from <= ranks
    decreases ranks - from
  {
    if from == ranks then [] else [Invalidate(from, pair)] + Invalidations(ranks, pair, from + 1)
  }

  // Rank `at.rank` answered a reservation with this lease.
  predicate Sees(answers: seq<Answer>, at: RankLease) {
    at.rank < |answers| && answers[at.rank] == Got(at.lease)
  }

  function SeenLeases(answers: seq<Answer>): (s: set<RankLease>)
    ensures forall at :: at in s <==> Sees(answers, at)
  {
    if answers == [] then {} else
      var n := |answers| - 1;
      var rest := SeenLeases(answers[..n]);
      if answers[n].Got? then rest + {At(n, answers[n].lease)} else rest
  }

  predicate Complete(answers: seq<Answer>) {
    forall r :: 0 <= r < |answers| ==> answers[r].Got?
  }

  predicate Answered(answers: seq<Answer>) {
    forall r :: 0 <= r < |answers| ==> !answers[r].Waiting?
  }

  function LeasesOf(answers: seq<Answer>): (s: seq<Lease>)
    requires Complete(answers)
    ensures |s| == |answers|
    ensures forall r :: 0 <= r < |s| ==> s[r] == answers[r].lease
  {
    seq(|answers|, r requires 0 <= r < |answers| => answers[r].lease)
  }

  // The writing leases of a pair that its rank holds: an invalidation buries the object under them.
  // Reading leases go on serving the buried object.
  function Victims(w: World, rank: nat, pair: Pair): set<RankLease> {
    set at | at in w.leases && at.rank == rank && at in w.writes && w.writes[at] == pair
  }

  function Revoke(w: World, rank: nat, pair: Pair): World {
    w.(leases := w.leases - Victims(w, rank, pair), taken := w.taken + Victims(w, rank, pair))
  }

  // A cleanup call is sent; `effect` says whether it took effect at its rank.
  function Deliver(w: World, e: Entry, effect: bool, trails: bool): World {
    match e
    case Invalidate(rank, pair) =>
      var u := if effect then Revoke(w, rank, pair) else w;
      if trails then u.(late := u.late + {e}) else u
    case Release(at) => w.(leases := if effect then w.leases - {at} else w.leases, sent := w.sent + {at})
  }

  function Withdraw(w: World, t: Ticket): World {
    w.(c := Retire(w.c, t.token), withdrawn := w.withdrawn + LeaseSet(t.leases))
  }

  function Put(w: World, o: OpId, op: Op): World {
    w.(ops := w.ops[o := op], used := w.used + {o})
  }

  function End(w: World, o: OpId): World {
    w.(ops := w.ops - {o}, used := w.used + {o})
  }

  function Minted(cfg: Config, token: Token, id: Identity, answers: seq<Answer>): Ticket
    requires Complete(answers)
  {
    Ticket(token, id.pair, LeasesOf(answers), Sizes(cfg, id), id.owner, id.writing)
  }

  // A renewal's verdict reaches whoever asked for it.
  function AfterRenew(w: World, o: OpId, ok: bool, t: Ticket, back: Option<Identity>): World {
    if back.None? then End(w, o)
    else if ok then Put(w, o, Rechecking(t, back.value))
    else Put(w, o, Retiring(t, true))
  }

  // ---- steps ------------------------------------------------------------------

  predicate EventEnabled(w: World, e: Event) {
    match e
    case Tick(d) => d >= 0.0
    case Close => true
    case Drops(at) => at in w.sent
    case Expires(at) => at in w.leases && w.leases[at] <= w.now
    case Extends(at, expiry) => at in w.leases && w.now < w.leases[at] && w.leases[at] <= expiry
    case Grants(at, expiry, writing) => at !in w.granted
    case Arrives(rank, pair, last) => Invalidate(rank, pair) in w.late
  }

  function ApplyEvent(w: World, e: Event): World {
    match e
    case Tick(d) => w.(now := w.now + d)
    case Close => w.(c := w.c.(closed := true))
    case Drops(at) => w.(leases := w.leases - {at})
    case Expires(at) => w.(leases := w.leases - {at})
    case Extends(at, expiry) => w.(leases := w.leases[at := expiry])
    case Grants(at, expiry, writing) =>
      w.(leases := w.leases[at := expiry], granted := w.granted + {at},
         writes := if writing.Some? then w.writes[at := writing.value] else w.writes)
    case Arrives(rank, pair, last) =>
      var u := Revoke(w, rank, pair);
      if last then u.(late := u.late - {Invalidate(rank, pair)}) else u
  }

  // Callers hold only tickets they were handed.
  predicate CallEnabled(w: World, o: OpId, call: Call) {
    && o !in w.used && o !in w.ops
    && match call
       case GiveBack(t) => t in w.issued
       case CompleteStore(t, _) => t in w.issued
       case Renew(t) => t in w.issued
       case _ => true
  }

  function ApplyCall(cfg: Config, w: World, o: OpId, call: Call): World {
    match call
    case Reserve(id, sizes) =>
      if Known(cfg, id) && sizes == Sizes(cfg, id) then ApplyLookup(w, o, id) else End(w, o)
    case GiveBack(t) => Put(w, o, Retiring(t, true))
    case Quarantine(pair) =>
      if InvalidateWellFormed(pair) then Put(w, o, Vetoing(pair, None)) else End(w, o)
    case CompleteStore(t, durable) =>
      Put(w, o, if durable then Retiring(t, true) else Vetoing(t.pair, Some(t)))
    case Renew(t) => Put(w, o, RenewChecking(t, None))
  }

  function ApplyLookup(w: World, o: OpId, id: Identity): World {
    match Lookup(w.c, id)
    case Refused => End(w, o)
    case Existing(t) => Put(w, o, RenewChecking(t, Some(id)))
    case Absent => Put(w, o, Admitting(id))
  }

  predicate StepEnabled(cfg: Config, w: World, op: Op, step: Step) {
    match step
    case Granted(at, expiry, seen) =>
      && op.Reserving? && at !in w.granted && w.now + cfg.ttl <= expiry
      && at.rank < |op.answers| && op.answers[at.rank].Waiting?
    case Denied(rank) =>
      op.Reserving? && rank < |op.answers| && op.answers[rank].Waiting?
    case Replied(ack, effect, trails) =>
      ((op.Calling? && op.work != []) || op.Replaying?) && (ack ==> effect)
    case RenewReplied(rank, ok, effect, expiry) =>
      && op.Renewing? && (ok ==> effect)
      && rank < |op.replies| && op.replies[rank].Unknown? && rank < |op.ticket.leases|
      && (effect ==>
            var at := At(rank, op.ticket.leases[rank]);
            at in w.leases && w.now < w.leases[at] && w.leases[at] <= expiry
            && w.now + cfg.ttl <= expiry)
    case Go(token) =>
      match op
      case Reserving(_, _, answers) =>
        Answered(answers) && forall t :: t in w.issued ==> t.token != token
      case Calling(_, work, _) => work == []
      case Replaying(_, _, _, _) => false
      case Renewing(_, _, _, replies) => forall r :: 0 <= r < |replies| ==> !replies[r].Unknown?
      case _ => true
  }

  function ApplyStep(cfg: Config, w: World, o: OpId, op: Op, step: Step): World
    requires cfg.Valid() && StepEnabled(cfg, w, op, step)
  {
    match step
    case Granted(at, expiry, seen) => ApplyGranted(w, o, op, at, expiry, seen)
    case Denied(rank) => Put(w, o, Reserving(op.id, op.started, op.answers[rank := Missing]))
    case Replied(ack, effect, trails) =>
      if op.Calling? then ApplyReply(w, o, op, ack, effect, trails) else ApplyReplay(w, o, op, ack, effect, trails)
    case RenewReplied(rank, ok, effect, expiry) =>
      ApplyRenewReply(w, o, op, rank, ok, effect, expiry)
    case Go(token) => ApplyGo(cfg, w, o, op, token)
  }

  // The next critical section of an operation.
  function ApplyGo(cfg: Config, w: World, o: OpId, op: Op, token: Token): World
    requires cfg.Valid()
  {
    match op
    case Admitting(id) => ApplyAdmit(cfg, w, o, id)
    case Starting(id) => ApplyStart(cfg, w, o, id)
    case Reserving(id, started, answers) => ApplyCommit(cfg, w, o, id, started, answers, token)
    case Calling(goal, _, acked) => ApplyDrain(cfg, w, o, goal, acked)
    case Queueing(goal, work, e) => ApplyQueue(cfg, w, o, goal, work, e)
    case Draining(goal, acked, budget) => ApplyPop(w, o, goal, acked, budget)
    case Replaying(_, _, _, _) => w
    case Requeueing(goal, e) => ApplyRequeue(cfg, w, o, goal, e)
    case Settled(goal, acked) => ApplyFinish(cfg, w, o, goal, acked)
    case Retiring(t, drop) => ApplyRetire(w, o, t, drop)
    case Vetoing(pair, after) => ApplyRaise(cfg, w, o, pair, after)
    case RenewChecking(t, back) => ApplyRenewCheck(w, o, t, back)
    case RenewSending(t, back) => ApplyRenewSend(cfg, w, o, t, back)
    case Renewing(t, back, started, replies) =>
      ApplyRenewCommit(cfg, w, o, t, back, started, replies)
    case Rechecking(t, id) => ApplyRecheck(w, o, t, id)
  }

  function ApplyAdmit(cfg: Config, w: World, o: OpId, id: Identity): World {
    if AdmitOk(cfg, w.c, id) then Put(w.(c := Admit(cfg, w.c, id)), o, Starting(id)) else End(w, o)
  }

  function ApplyStart(cfg: Config, w: World, o: OpId, id: Identity): World {
    Put(w, o, Reserving(id, w.now, seq(cfg.ranks, _ => Waiting)))
  }

  function ApplyDrain(cfg: Config, w: World, o: OpId, goal: Goal, acked: bool): World {
    Put(w, o, Draining(goal, acked,
                       if |w.c.retry| < cfg.drainLimit then |w.c.retry| else cfg.drainLimit))
  }

  function ApplyQueue(cfg: Config, w: World, o: OpId, goal: Goal, work: seq<Entry>, e: Entry): World
    requires 0 < cfg.retryCap
  {
    Put(w.(c := Replay(cfg, w.c, e)), o, Calling(goal, work, false))
  }

  function ApplyRequeue(cfg: Config, w: World, o: OpId, goal: Goal, e: Entry): World
    requires 0 < cfg.retryCap
  {
    Put(w.(c := Replay(cfg, w.c, e)), o, Settled(goal, false))
  }

  function ApplyRetire(w: World, o: OpId, t: Ticket, drop: bool): World {
    Put(Withdraw(w, t), o, Calling(LetGo(t, drop), Releases(t.leases, 0), true))
  }

  function ApplyRenewCheck(w: World, o: OpId, t: Ticket, back: Option<Identity>): World {
    if !RenewOk(w.c, t) then AfterRenew(w, o, false, t, back)
    else if RenewCached(w.c, t, w.now) then AfterRenew(w, o, true, t, back)
    else Put(w, o, RenewSending(t, back))
  }

  function ApplyRenewSend(cfg: Config, w: World, o: OpId, t: Ticket, back: Option<Identity>): World {
    Put(w, o, Renewing(t, back, w.now, seq(cfg.ranks, _ => Unknown)))
  }

  function ApplyRecheck(w: World, o: OpId, t: Ticket, id: Identity): World {
    if RecheckOk(w.c, id, t) then End(w, o) else Put(w, o, Admitting(id))
  }

  function ApplyGranted(w: World, o: OpId, op: Op, at: RankLease, expiry: real, seen: bool): World
    requires op.Reserving? && at.rank < |op.answers|
  {
    var answer := if seen then Got(at.lease) else Missing;
    Put(w.(leases := w.leases[at := expiry], granted := w.granted + {at},
           writes := if op.id.writing then w.writes[at := op.id.pair] else w.writes), o,
        Reserving(op.id, op.started, op.answers[at.rank := answer]))
  }

  function ApplyCommit(cfg: Config, w: World, o: OpId, id: Identity, started: real,
                       answers: seq<Answer>, token: Token): World
  {
    var until := started + cfg.ttl - cfg.margin;
    if CommitOk(w.c, id.pair, Complete(answers), w.now, until) then
      var t := Minted(cfg, token, id, answers);
      End(w.(c := Commit(w.c, t, until), issued := w.issued + {t},
             origin := w.origin[token := o]), o)
    else
      Put(w.(withdrawn := w.withdrawn + SeenLeases(answers)), o,
          Calling(GiveUp(id), Rollbacks(answers, 0), true))
  }

  function ApplyReply(w: World, o: OpId, op: Op, ack: bool, effect: bool, trails: bool): World
    requires op.Calling? && op.work != []
  {
    Put(Deliver(w, op.work[0], effect, trails), o,
        if ack then Calling(op.goal, op.work[1..], op.acked)
        else Queueing(op.goal, op.work[1..], op.work[0]))
  }

  function ApplyReplay(w: World, o: OpId, op: Op, ack: bool, effect: bool, trails: bool): World
    requires op.Replaying?
  {
    Put(Deliver(w, op.entry, effect, trails), o,
        if ack then Draining(op.goal, op.acked, op.budget) else Requeueing(op.goal, op.entry))
  }

  // One turn of the replay loop.
  function ApplyPop(w: World, o: OpId, goal: Goal, acked: bool, budget: nat): World {
    if budget == 0 then
      Put(w, o, Settled(goal, acked && w.c.retry == [] && !w.c.lost))
    else if w.c.retry == [] then
      Put(w, o, Settled(goal, acked && !w.c.lost))
    else
      Put(w.(c := w.c.(retry := w.c.retry[1..])), o,
          Replaying(goal, acked, budget - 1, w.c.retry[0]))
  }

  function ApplyFinish(cfg: Config, w: World, o: OpId, goal: Goal, acked: bool): World {
    match goal
    case GiveUp(id) => End(w.(c := Abandon(cfg, w.c, id)), o)
    case LetGo(t, drop) =>
      if acked && drop then End(w.(c := Drop(w.c, t.token)), o) else End(w, o)
    case Veto(pair, after) =>
      var w' := if acked then w.(c := Acknowledge(w.c, pair)) else w;
      if after.Some? then Put(w', o, Retiring(after.value, acked)) else End(w', o)
    case Renewed(ok, t, back) => AfterRenew(w, o, ok, t, back)
  }

  function ApplyRaise(cfg: Config, w: World, o: OpId, pair: Pair, after: Option<Ticket>): World {
    var w' := w.(c := Raise(cfg, w.c, pair));
    if RaiseOk(cfg, w.c, pair) then
      Put(w', o, Calling(Veto(pair, after), Invalidations(cfg.ranks, pair, 0), true))
    else if after.Some? then Put(w', o, Retiring(after.value, false))
    else End(w', o)
  }

  function ApplyRenewReply(w: World, o: OpId, op: Op, rank: nat, ok: bool, effect: bool,
                           expiry: real): World
    requires op.Renewing? && rank < |op.replies| && rank < |op.ticket.leases|
  {
    var at := At(rank, op.ticket.leases[rank]);
    Put(w.(leases := if effect then w.leases[at := expiry] else w.leases), o,
        Renewing(op.ticket, op.back, op.started, op.replies[rank := if ok then Yes else No]))
  }

  function ApplyRenewCommit(cfg: Config, w: World, o: OpId, t: Ticket, back: Option<Identity>,
                            started: real, replies: seq<Reply>): World
  {
    var until := started + cfg.ttl - cfg.margin;
    var all := forall r :: 0 <= r < |replies| ==> replies[r].Yes?;
    var ok := all && RenewCommitOk(w.c, t, w.now, until);
    Put(w.(c := if all then RenewCommit(w.c, t, w.now, until) else w.c), o,
        Calling(Renewed(ok, t, back), [], true))
  }

  predicate Enabled(cfg: Config, w: World, a: Act) {
    match a
    case Outside(e) => EventEnabled(w, e)
    case Begin(o, call) => CallEnabled(w, o, call)
    case Advance(o, step) => o in w.ops && StepEnabled(cfg, w, w.ops[o], step)
  }

  function Apply(cfg: Config, w: World, a: Act): World
    requires cfg.Valid() && Enabled(cfg, w, a)
  {
    match a
    case Outside(e) => ApplyEvent(w, e)
    case Begin(o, call) => ApplyCall(cfg, w, o, call)
    case Advance(o, step) => ApplyStep(cfg, w, o, w.ops[o], step)
  }

  // ---- runs -------------------------------------------------------------------

  // Worlds w[0], w[1], ... joined by steps acts[0], acts[1], ...
  ghost predicate Run(cfg: Config, ws: seq<World>, acts: seq<Act>)
    requires cfg.Valid()
  {
    && |ws| == |acts| + 1
    && forall i :: 0 <= i < |acts| ==>
         Enabled(cfg, ws[i], acts[i]) && ws[i+1] == Apply(cfg, ws[i], acts[i])
  }
}
