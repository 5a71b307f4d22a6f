/** Runs of the machine in which one operation goes on without interruption: they leave the books
    that the coordinator's own loops leave. */
module RemoteWalks {
  import opened Basics
  import opened Coordination
  import opened RemoteProtocol
  import opened RemoteCleanup
  import opened RemoteTheorems

  // Some run leads from `from` to `w`, and no pair of `calm` is vetoed on the way.
  ghost predicate Leads(cfg: Config, calm: set<Pair>, from: World, w: World)
    requires cfg.Valid()
  {
    exists ws: seq<World>, acts: seq<Act> :: Run(cfg, ws, acts) && ws[0] == from && ws[|acts|] == w && Calm(ws, calm)
  }

  ghost predicate Calm(ws: seq<World>, calm: set<Pair>) {
    forall i :: 0 <= i < |ws| ==> ws[i].c.invalid !! calm
  }

  lemma LeadsHere(cfg: Config, calm: set<Pair>, w: World)
    requires cfg.Valid() && w.c.invalid !! calm
    ensures Leads(cfg, calm, w, w)
  {
    var ws, acts: seq<Act> := [w], [];
    assert Run(cfg, ws, acts) && ws[|acts|] == w;
  }

  lemma LeadsOn(cfg: Config, calm: set<Pair>, from: World, w: World, a: Act)
    requires cfg.Valid() && Leads(cfg, calm, from, w) && Enabled(cfg, w, a) && Apply(cfg, w, a).c.invalid !! calm
    ensures Leads(cfg, calm, from, Apply(cfg, w, a))
  {
    hide Apply, Enabled;
    var ws: seq<World>, acts: seq<Act> :|
      Run(cfg, ws, acts) && ws[0] == from && ws[|acts|] == w && Calm(ws, calm);
    var v := Apply(cfg, w, a);
    assert Run(cfg, ws + [v], acts + [a]);
    assert (ws + [v])[|acts + [a]|] == v && (ws + [v])[0] == from;
  }

  lemma {:induction false} ReachableAlong(cfg: Config, ws: seq<World>, acts: seq<Act>, i: nat)
    requires cfg.Valid() && Run(cfg, ws, acts) && Reachable(cfg, ws[0]) && i <= |acts|
    ensures Reachable(cfg, ws[i])
  {
    hide Apply, Enabled, Reachable;
    if i > 0 {
      ReachableAlong(cfg, ws, acts, i - 1);
      StepOf(cfg, ws, acts, i - 1);
      ReachableNext(cfg, ws[i - 1], acts[i - 1]);
    }
  }

  lemma LeadsReach(cfg: Config, calm: set<Pair>, from: World, w: World)
    requires cfg.Valid() && Reachable(cfg, from) && Leads(cfg, calm, from, w)
    ensures Reachable(cfg, w) && w.c.invalid !! calm
  {
    hide Reachable, Apply, Enabled;
    var ws: seq<World>, acts: seq<Act> :|
      Run(cfg, ws, acts) && ws[0] == from && ws[|acts|] == w && Calm(ws, calm);
    ReachableAlong(cfg, ws, acts, |acts|);
  }

  lemma Take(cfg: Config, calm: set<Pair>, from: World, w: World, o: OpId, step: Step, v: World)
    requires cfg.Valid() && Leads(cfg, calm, from, w) && o in w.ops && StepEnabled(cfg, w, w.ops[o], step)
    requires v == ApplyStep(cfg, w, o, w.ops[o], step) && v.c.invalid !! calm
    ensures Leads(cfg, calm, from, v)
  {
    LeadsOn(cfg, calm, from, w, Advance(o, step));
  }

  // ---- one step -------------------------------------------------------------------------

  // What an operation that only cleans up leaves alone.
  ghost predicate Aside(w: World, v: World, o: OpId) {
    && o in v.ops && v.ops == w.ops[o := v.ops[o]] && w.used <= v.used <= w.used + {o}
    && v.now == w.now && v.issued == w.issued && v.granted == w.granted && v.writes == w.writes
    && v.withdrawn == w.withdrawn && v.late == w.late
  }

  lemma AsideTwice(u: World, v: World, w: World, o: OpId)
    requires Aside(u, v, o) && Aside(v, w, o)
    ensures Aside(u, w, o)
  {
  }

  // The next cleanup call is made and answered.
  lemma AnsweredOne(cfg: Config, calm: set<Pair>, from: World, w: World, o: OpId, ack: bool) returns (v: World)
    requires cfg.Valid() && Leads(cfg, calm, from, w) && w.c.invalid !! calm && o in w.ops
    requires w.ops[o].Calling? && w.ops[o].work != []
    ensures Leads(cfg, calm, from, v) && v.c == w.c && Aside(w, v, o)
    ensures
      var Calling(goal, work, acked) := w.ops[o];
      v.ops[o] == if ack then Calling(goal, work[1..], acked) else Queueing(goal, work[1..], work[0])
  {
    hide Leads;
    v := ApplyReply(w, o, w.ops[o], ack, ack, false);
    Take(cfg, calm, from, w, o, Replied(ack, ack, false), v);
    DeliverAside(w, w.ops[o].work[0], ack);
  }

  lemma DeliverAside(w: World, e: Entry, effect: bool)
    ensures
      var u := Deliver(w, e, effect, false);
      && u.c == w.c && u.issued == w.issued && u.withdrawn == w.withdrawn && u.late == w.late
      && u.ops == w.ops && u.used == w.used && u.now == w.now && u.granted == w.granted && u.writes == w.writes
  {
    hide Victims;
  }

  lemma Logged(cfg: Config, calm: set<Pair>, from: World, w: World, o: OpId) returns (v: World)
    requires cfg.Valid() && Leads(cfg, calm, from, w) && w.c.invalid !! calm && o in w.ops
    requires w.ops[o].Queueing? || w.ops[o].Requeueing?
    ensures Leads(cfg, calm, from, v) && v.c == Replay(cfg, w.c, w.ops[o].entry) && Aside(w, v, o)
    ensures v.ops[o] == if w.ops[o].Queueing? then Calling(w.ops[o].goal, w.ops[o].work, false)
                        else Settled(w.ops[o].goal, false)
  {
    hide Leads;
    v := ApplyStep(cfg, w, o, w.ops[o], Go(0));
    Take(cfg, calm, from, w, o, Go(0), v);
  }

  // ---- calls and replays ------------------------------------------------------------------

  /** An operation that makes its cleanup calls without interruption, given any answers from the ranks,
      leaves the books and the verdict of the object's own loops. */
  lemma {:induction false} CallsRun(cfg: Config, calm: set<Pair>, from: World, w: World, o: OpId, acks: seq<bool>)
    returns (v: World)
    requires cfg.Valid() && Leads(cfg, calm, from, w) && w.c.invalid !! calm && o in w.ops
    requires w.ops[o].Calling? && |acks| == |w.ops[o].work|
    ensures Leads(cfg, calm, from, v) && Aside(w, v, o)
    ensures
      var (d, done) := Calls(cfg, w.c, w.ops[o].work, acks);
      v.c == d && v.ops[o] == Calling(w.ops[o].goal, [], w.ops[o].acked && done)
    decreases |acks|
  {
    hide Leads, Replay;
    var op := w.ops[o];
    if op.work == [] {
      v := w;
      assert w.ops[o := w.ops[o]] == w.ops;
    } else {
      var u := AnsweredOne(cfg, calm, from, w, o, acks[0]);
      if !acks[0] {
        ReplayVetoes(cfg, u.c, op.work[0]);
        var x := Logged(cfg, calm, from, u, o);
        AsideTwice(w, u, x, o);
        u := x;
      }
      v := CallsRun(cfg, calm, from, u, o, acks[1..]);
      AsideTwice(w, u, v, o);
    }
  }

  lemma ReplayVetoes(cfg: Config, c: Coord, e: Entry)
    requires 0 < cfg.retryCap
    ensures Replay(cfg, c, e).invalid == c.invalid
  {
  }

  // One turn of the replay loop: the first logged call is taken out and made again.
  lemma Turn(cfg: Config, calm: set<Pair>, from: World, w: World, o: OpId, ack: bool) returns (v: World)
    requires cfg.Valid() && Leads(cfg, calm, from, w) && w.c.invalid !! calm && o in w.ops
    requires w.ops[o].Draining? && 0 < w.ops[o].budget && w.c.retry != []
    ensures Leads(cfg, calm, from, v) && v.c == w.c.(retry := w.c.retry[1..]) && Aside(w, v, o)
    ensures
      var Draining(goal, acked, budget) := w.ops[o];
      v.ops[o] == if ack then Draining(goal, acked, budget - 1) else Requeueing(goal, w.c.retry[0])
  {
    hide Leads;
    var u := Popped(cfg, calm, from, w, o);
    v := ApplyReplay(u, o, u.ops[o], ack, ack, false);
    DeliverAside(u, u.ops[o].entry, ack);
    hide Deliver;
    Take(cfg, calm, from, u, o, Replied(ack, ack, false), v);
  }

  lemma Popped(cfg: Config, calm: set<Pair>, from: World, w: World, o: OpId) returns (u: World)
    requires cfg.Valid() && Leads(cfg, calm, from, w) && w.c.invalid !! calm && o in w.ops
    requires w.ops[o].Draining? && 0 < w.ops[o].budget && w.c.retry != []
    ensures Leads(cfg, calm, from, u) && u.c == w.c.(retry := w.c.retry[1..]) && Aside(w, u, o)
    ensures u.ops[o] == Replaying(w.ops[o].goal, w.ops[o].acked, w.ops[o].budget - 1, w.c.retry[0])
  {
    hide Leads;
    u := ApplyPop(w, o, w.ops[o].goal, w.ops[o].acked, w.ops[o].budget);
    Take(cfg, calm, from, w, o, Go(0), u);
  }

  lemma Settles(cfg: Config, calm: set<Pair>, from: World, w: World, o: OpId) returns (v: World)
    requires cfg.Valid() && Leads(cfg, calm, from, w) && w.c.invalid !! calm && o in w.ops
    requires w.ops[o].Draining? && (w.ops[o].budget == 0 || w.c.retry == [])
    ensures Leads(cfg, calm, from, v) && v.c == w.c && Aside(w, v, o)
    ensures v.ops[o] == Settled(w.ops[o].goal, w.ops[o].acked && w.c.retry == [] && !w.c.lost)
  {
    hide Leads;
    v := ApplyPop(w, o, w.ops[o].goal, w.ops[o].acked, w.ops[o].budget);
    Take(cfg, calm, from, w, o, Go(0), v);
  }

  /** The same for one pass over the replay log. */
  lemma {:induction false} DrainRuns(cfg: Config, calm: set<Pair>, from: World, w: World, o: OpId, acks: seq<bool>)
    returns (v: World)
    requires cfg.Valid() && Leads(cfg, calm, from, w) && w.c.invalid !! calm && o in w.ops
    requires w.ops[o].Draining? && w.ops[o].budget <= |acks|
    ensures Leads(cfg, calm, from, v) && Aside(w, v, o)
    ensures
      var (d, done) := Drain(cfg, w.c, w.ops[o].budget, acks);
      v.c == d && v.ops[o] == Settled(w.ops[o].goal, w.ops[o].acked && done)
    decreases w.ops[o].budget
  {
    hide Leads, Replay;
    if w.ops[o].budget == 0 || w.c.retry == [] {
      v := Settles(cfg, calm, from, w, o);
    } else {
      var u := Turn(cfg, calm, from, w, o, acks[0]);
      if acks[0] {
        v := DrainRuns(cfg, calm, from, u, o, acks[1..]);
      } else {
        ReplayVetoes(cfg, u.c, w.c.retry[0]);
        v := Logged(cfg, calm, from, u, o);
      }
      AsideTwice(w, u, v, o);
    }
  }

  lemma Drains(cfg: Config, calm: set<Pair>, from: World, w: World, o: OpId) returns (v: World)
    requires cfg.Valid() && Leads(cfg, calm, from, w) && w.c.invalid !! calm && o in w.ops
    requires w.ops[o].Calling? && w.ops[o].work == []
    ensures Leads(cfg, calm, from, v) && v.c == w.c && Aside(w, v, o)
    ensures v.ops[o] == Draining(w.ops[o].goal, w.ops[o].acked, Budget(cfg, w.c))
  {
    hide Leads;
    v := ApplyDrain(cfg, w, o, w.ops[o].goal, w.ops[o].acked);
    Take(cfg, calm, from, w, o, Go(0), v);
  }

  lemma CleanupRuns(cfg: Config, calm: set<Pair>, from: World, w: World, o: OpId, acks: seq<bool>, again: seq<bool>)
    returns (v: World)
    requires cfg.Valid() && Leads(cfg, calm, from, w) && w.c.invalid !! calm && o in w.ops
    requires w.ops[o].Calling? && w.ops[o].acked && |acks| == |w.ops[o].work| && cfg.drainLimit <= |again|
    ensures Leads(cfg, calm, from, v) && Aside(w, v, o) && v.c.invalid == w.c.invalid
    ensures
      var (d, done) := Cleanup(cfg, w.c, w.ops[o].work, acks, again);
      v.c == d && v.ops[o] == Settled(w.ops[o].goal, done)
  {
    hide Leads, Calls, Drain;
    CallsVerdict(cfg, w.c, w.ops[o].work, acks);
    var a := CallsRun(cfg, calm, from, w, o, acks);
    var b := Drains(cfg, calm, from, a, o);
    v := DrainRuns(cfg, calm, from, b, o, again);
    AsideTwice(w, a, b, o);
    AsideTwice(w, b, v, o);
    DrainShape(cfg, a.c, Budget(cfg, a.c), again);
  }

  // ---- whole operations -----------------------------------------------------------------

  // An operation came to its end; the ranks did nothing but what it asked of them.
  ghost predicate Over(w: World, v: World, o: OpId) {
    && v.ops == w.ops - {o} && w.used <= v.used <= w.used + {o}
    && v.now == w.now && v.issued == w.issued && v.granted == w.granted && v.writes == w.writes && v.late == w.late
  }

  lemma Ends(w: World, a: World, v: World, o: OpId)
    requires Aside(w, a, o) && v == End(a.(c := v.c), o)
    ensures Over(w, v, o)
  {
    assert a.ops - {o} == w.ops - {o};
  }

  lemma DropVetoes(c: Coord, t: Token)
    ensures Drop(c, t).invalid <= c.invalid
  {
    hide MaxOf, Drained;
  }

  /** A release run without interruption leaves the books of the object's `Release`. */
  lemma ReleaseRuns(cfg: Config, calm: set<Pair>, from: World, w: World, o: OpId, t: Ticket, drop: bool,
                    acks: seq<bool>, again: seq<bool>) returns (v: World)
    requires cfg.Valid() && Leads(cfg, calm, from, w) && w.c.invalid !! calm && o in w.ops
    requires w.ops[o] == Retiring(t, drop) && |acks| == |Releases(t.leases, 0)| && cfg.drainLimit <= |again|
    ensures Leads(cfg, calm, from, v) && Over(w, v, o)
    ensures v.c == ReleaseBooks(cfg, w.c, t, drop, acks, again).0
  {
    hide Leads, Cleanup, Releases, Drop, Retire;
    var a := Retires(cfg, calm, from, w, o, t, drop);
    var b := CleanupRuns(cfg, calm, from, a, o, acks, again);
    v := ApplyFinish(cfg, b, o, b.ops[o].goal, b.ops[o].acked);
    DropVetoes(b.c, t.token);
    Take(cfg, calm, from, b, o, Go(0), v);
    Ends(a, b, v, o);
    assert a.ops - {o} == w.ops - {o};
  }

  lemma Retires(cfg: Config, calm: set<Pair>, from: World, w: World, o: OpId, t: Ticket, drop: bool) returns (a: World)
    requires cfg.Valid() && Leads(cfg, calm, from, w) && w.c.invalid !! calm && o in w.ops && w.ops[o] == Retiring(t, drop)
    ensures Leads(cfg, calm, from, a) && a.c == Retire(w.c, t.token) && a.c.invalid == w.c.invalid
    ensures a.ops == w.ops[o := Calling(LetGo(t, drop), Releases(t.leases, 0), true)] && a.used == w.used + {o}
    ensures a.now == w.now && a.issued == w.issued && a.granted == w.granted && a.writes == w.writes && a.late == w.late
  {
    hide Leads, Releases, LeaseSet;
    a := ApplyRetire(w, o, t, drop);
    Take(cfg, calm, from, w, o, Go(0), a);
  }

  /** An invalidation run without interruption leaves the books of the object's `Invalidate`. */
  lemma InvalidateRuns(cfg: Config, from: World, w: World, o: OpId, pair: Pair, acks: seq<bool>, again: seq<bool>)
    returns (v: World)
    requires cfg.Valid() && Leads(cfg, {}, from, w) && o in w.ops && w.ops[o] == Vetoing(pair, None)
    requires |acks| == |Invalidations(cfg.ranks, pair, 0)| && cfg.drainLimit <= |again|
    ensures Leads(cfg, {}, from, v) && Over(w, v, o)
    ensures v.c == InvalidateBooks(cfg, w.c, pair, acks, again).0
  {
    hide Leads, Cleanup, Invalidations, Acknowledge, RaiseOk;
    var a := Raises(cfg, from, w, o, pair);
    if RaiseOk(cfg, w.c, pair) {
      var b := CleanupRuns(cfg, {}, from, a, o, acks, again);
      v := ApplyFinish(cfg, b, o, b.ops[o].goal, b.ops[o].acked);
      Take(cfg, {}, from, b, o, Go(0), v);
      Ends(a, b, v, o);
      assert a.ops - {o} == w.ops - {o};
    } else {
      v := a;
    }
  }

  lemma Raises(cfg: Config, from: World, w: World, o: OpId, pair: Pair) returns (a: World)
    requires cfg.Valid() && Leads(cfg, {}, from, w) && o in w.ops && w.ops[o] == Vetoing(pair, None)
    ensures Leads(cfg, {}, from, a) && a.c == Raise(cfg, w.c, pair) && a.used == w.used + {o}
    ensures RaiseOk(cfg, w.c, pair) ==>
      a.ops == w.ops[o := Calling(Veto(pair, None), Invalidations(cfg.ranks, pair, 0), true)]
    ensures !RaiseOk(cfg, w.c, pair) ==> a.ops == w.ops - {o}
    ensures a.now == w.now && a.issued == w.issued && a.granted == w.granted && a.writes == w.writes && a.late == w.late
  {
    hide Leads, Invalidations, RaiseOk;
    a := ApplyRaise(cfg, w, o, pair, None);
    Take(cfg, {}, from, w, o, Go(0), a);
  }

  /** So does a reservation that every rank has answered, but that does not become a ticket. */
  lemma RefuseRuns(cfg: Config, calm: set<Pair>, from: World, w: World, o: OpId, acks: seq<bool>, again: seq<bool>)
    returns (v: World)
    requires cfg.Valid() && Leads(cfg, calm, from, w) && w.c.invalid !! calm && o in w.ops && w.ops[o].Reserving?
    requires
      var Reserving(id, started, answers) := w.ops[o];
      && Answered(answers) && !CommitOk(w.c, id.pair, Complete(answers), w.now, started + cfg.ttl - cfg.margin)
      && |acks| == |Rollbacks(answers, 0)| && cfg.drainLimit <= |again|
    ensures Leads(cfg, calm, from, v) && Over(w, v, o)
    ensures v.c == RefuseBooks(cfg, w.c, w.ops[o].id, w.ops[o].answers, acks, again)
  {
    hide Leads, Cleanup, Rollbacks, Abandon;
    var a := Refuses(cfg, calm, from, w, o);
    var b := CleanupRuns(cfg, calm, from, a, o, acks, again);
    v := ApplyFinish(cfg, b, o, b.ops[o].goal, b.ops[o].acked);
    AbandonVetoes(cfg, b.c, w.ops[o].id);
    Take(cfg, calm, from, b, o, Go(0), v);
    Ends(a, b, v, o);
    assert a.ops - {o} == w.ops - {o};
  }

  lemma AbandonVetoes(cfg: Config, c: Coord, id: Identity)
    ensures Abandon(cfg, c, id).invalid <= c.invalid
  {
    hide Drained, Charge;
  }

  // A reservation that failed turns to its rollback; its leases are given up.
  lemma Refuses(cfg: Config, calm: set<Pair>, from: World, w: World, o: OpId) returns (a: World)
    requires cfg.Valid() && Leads(cfg, calm, from, w) && w.c.invalid !! calm && o in w.ops && w.ops[o].Reserving?
    requires
      var Reserving(id, started, answers) := w.ops[o];
      Answered(answers) && !CommitOk(w.c, id.pair, Complete(answers), w.now, started + cfg.ttl - cfg.margin)
    ensures Leads(cfg, calm, from, a) && a.c == w.c && a.used == w.used + {o}
    ensures a.ops == w.ops[o := Calling(GiveUp(w.ops[o].id), Rollbacks(w.ops[o].answers, 0), true)]
    ensures a.now == w.now && a.issued == w.issued && a.granted == w.granted && a.writes == w.writes && a.late == w.late
  {
    hide Leads, Rollbacks, SeenLeases, CommitOk;
    var Reserving(id, started, answers) := w.ops[o];
    var tokens := set t | t in w.issued :: t.token;
    var token := Unused(tokens);
    assert forall t :: t in w.issued ==> t.token in tokens;
    a := ApplyCommit(cfg, w, o, id, started, answers, token);
    Take(cfg, calm, from, w, o, Go(token), a);
  }

  // There is always a number that was not used yet.
  lemma Unused(s: set<nat>) returns (n: nat)
    ensures forall x :: x in s ==> x < n
    decreases |s|
  {
    n := 0;
    if s != {} {
      var x :| x in s;
      var m := Unused(s - {x});
      n := if x < m then m else x + 1;
      assert forall y :: y in s ==> y == x || y in s - {x};
    }
  }

  // ---- reservations -----------------------------------------------------------------------

  lemma Asks(cfg: Config, calm: set<Pair>, from: World, w: World, o: OpId, id: Identity) returns (v: World)
    requires cfg.Valid() && Leads(cfg, calm, from, w) && w.c.invalid !! calm && o !in w.used && o !in w.ops
    requires Known(cfg, id) && Lookup(w.c, id) == Absent
    ensures Leads(cfg, calm, from, v) && v == Put(w, o, Admitting(id))
  {
    hide Leads, Known, Lookup;
    v := Apply(cfg, w, Begin(o, Reserve(id, Sizes(cfg, id))));
    LeadsOn(cfg, calm, from, w, Begin(o, Reserve(id, Sizes(cfg, id))));
  }

  /** A reservation is over at once, and touches nothing, exactly if its group is unknown or its sizes are not
      those of the group, the coordinator is closed, the pair vetoed or the identity's ticket being
      released; otherwise a ticket that is found is renewed, and without one credits are sought. */
  lemma LooksUp(cfg: Config, w: World, o: OpId, id: Identity, sizes: seq<nat>)
    requires cfg.Valid() && Enabled(cfg, w, Begin(o, Reserve(id, sizes)))
    ensures
      var v := Apply(cfg, w, Begin(o, Reserve(id, sizes)));
      && v == w.(ops := v.ops, used := v.used)
      && if !WellFormed(id) || GroupOf(id.pair.key) >= |cfg.sizeByGroup| || sizes != cfg.sizeByGroup[GroupOf(id.pair.key)]
            || w.c.closed || id.pair in w.c.invalid || (id in w.c.identities && w.c.identities[id] in w.c.retiring)
         then v.ops == w.ops
         else if id in w.c.identities && w.c.identities[id] in w.c.tickets
         then v.ops == w.ops[o := RenewChecking(w.c.tickets[w.c.identities[id]], Some(id))]
         else v.ops == w.ops[o := Admitting(id)]
  {
    hide WellFormed, GroupOf;
    assert w.ops - {o} == w.ops;
  }

  lemma Admits(cfg: Config, calm: set<Pair>, from: World, w: World, o: OpId, id: Identity) returns (v: World)
    requires cfg.Valid() && Leads(cfg, calm, from, w) && w.c.invalid !! calm && o in w.ops && w.ops[o] == Admitting(id)
    requires AdmitOk(cfg, w.c, id)
    ensures Leads(cfg, calm, from, v)
    ensures v == Put(w.(c := Admit(cfg, w.c, id)), o, Reserving(id, w.now, Fill(cfg.ranks, 0, Missing)))
  {
    hide Leads, AdmitOk, Charge;
    var u := Put(w.(c := Admit(cfg, w.c, id)), o, Starting(id));
    Take(cfg, calm, from, w, o, Go(0), u);
    v := ApplyStart(cfg, u, o, id);
    Take(cfg, calm, from, u, o, Go(0), v);
    assert v.ops[o].answers == Fill(cfg.ranks, 0, Missing);
    assert u.ops[o := v.ops[o]] == w.ops[o := v.ops[o]];
  }

  // The answers when the first k ranks have given this one and the others none yet.
  function Fill(n: nat, k: nat, answer: Answer): (s: seq<Answer>)
    requires k <= n
    ensures |s| == n
  {
    seq(n, r => if r < k then answer else Waiting)
  }

  /** The remaining ranks refuse. */
  lemma {:induction false} Denies(cfg: Config, calm: set<Pair>, from: World, w: World, o: OpId, k: nat) returns (v: World)
    requires cfg.Valid() && Leads(cfg, calm, from, w) && w.c.invalid !! calm && o in w.ops && w.ops[o].Reserving?
    requires k <= cfg.ranks && w.ops[o].answers == Fill(cfg.ranks, k, Missing)
    ensures Leads(cfg, calm, from, v)
    ensures v == w.(ops := w.ops[o := Reserving(w.ops[o].id, w.ops[o].started, Fill(cfg.ranks, cfg.ranks, Missing))],
                    used := if k < cfg.ranks then w.used + {o} else w.used)
    decreases cfg.ranks - k
  {
    hide Leads;
    if k == cfg.ranks {
      v := w;
      assert w.ops[o := w.ops[o]] == w.ops;
    } else {
      var u := Denied1(cfg, calm, from, w, o, k);
      v := Denies(cfg, calm, from, u, o, k + 1);
      assert u.ops[o := v.ops[o]] == w.ops[o := v.ops[o]];
    }
  }

  lemma Denied1(cfg: Config, calm: set<Pair>, from: World, w: World, o: OpId, k: nat) returns (v: World)
    requires cfg.Valid() && Leads(cfg, calm, from, w) && w.c.invalid !! calm && o in w.ops && w.ops[o].Reserving?
    requires k < cfg.ranks && w.ops[o].answers == Fill(cfg.ranks, k, Missing)
    ensures Leads(cfg, calm, from, v)
    ensures v == Put(w, o, Reserving(w.ops[o].id, w.ops[o].started, Fill(cfg.ranks, k + 1, Missing)))
  {
    hide Leads;
    v := ApplyStep(cfg, w, o, w.ops[o], Denied(k));
    assert w.ops[o].answers[k := Missing] == Fill(cfg.ranks, k + 1, Missing);
    Take(cfg, calm, from, w, o, Denied(k), v);
  }

  // What the grants of one reservation add at the ranks.
  ghost predicate Grown(cfg: Config, w: World, v: World, id: Identity, lease: Lease, k: nat) {
    && v.c == w.c && v.now == w.now && v.issued == w.issued && v.late == w.late && v.withdrawn == w.withdrawn
    && v.taken == w.taken
    && (forall at :: at in v.granted <==> at in w.granted || (k <= at.rank < cfg.ranks && at.lease == lease))
    && (forall at :: at in w.leases ==> at in v.leases)
    && (forall at :: at in w.writes && at in w.granted ==> at in v.writes && v.writes[at] == w.writes[at])
    && (forall r :: k <= r < cfg.ranks ==>
          At(r, lease) in v.leases && (id.writing ==> At(r, lease) in v.writes && v.writes[At(r, lease)] == id.pair))
  }

  /** The remaining ranks grant. */
  lemma {:induction false} Grants(cfg: Config, calm: set<Pair>, from: World, w: World, o: OpId, lease: Lease, k: nat)
    returns (v: World)
    requires cfg.Valid() && Leads(cfg, calm, from, w) && w.c.invalid !! calm && o in w.ops && w.ops[o].Reserving?
    requires k <= cfg.ranks && w.ops[o].answers == Fill(cfg.ranks, k, Got(lease))
    requires forall r :: k <= r < cfg.ranks ==> At(r, lease) !in w.granted
    ensures Leads(cfg, calm, from, v) && Grown(cfg, w, v, w.ops[o].id, lease, k)
    ensures v.ops == w.ops[o := Reserving(w.ops[o].id, w.ops[o].started, Fill(cfg.ranks, cfg.ranks, Got(lease)))]
    ensures w.used <= v.used <= w.used + {o}
    decreases cfg.ranks - k
  {
    hide Leads, Grown;
    if k == cfg.ranks {
      v := w;
      assert w.ops[o := w.ops[o]] == w.ops;
      GrownNone(cfg, w, w.ops[o].id, lease);
    } else {
      var u := Granted1(cfg, calm, from, w, o, lease, k);
      v := Grants(cfg, calm, from, u, o, lease, k + 1);
      GrownMore(cfg, w, u, v, w.ops[o].id, lease, k);
      assert u.ops[o := v.ops[o]] == w.ops[o := v.ops[o]];
    }
  }

  lemma GrownNone(cfg: Config, w: World, id: Identity, lease: Lease)
    ensures Grown(cfg, w, w, id, lease, cfg.ranks)
  {
  }

  lemma GrownMore(cfg: Config, w: World, u: World, v: World, id: Identity, lease: Lease, k: nat)
    requires k < cfg.ranks && Grown(cfg, u, v, id, lease, k + 1)
    requires u == w.(leases := u.leases, granted := w.granted + {At(k, lease)}, writes := u.writes, ops := u.ops,
                     used := u.used)
    requires u.leases.Keys == w.leases.Keys + {At(k, lease)}
    requires u.writes == if id.writing then w.writes[At(k, lease) := id.pair] else w.writes
    requires At(k, lease) !in w.granted
    ensures Grown(cfg, w, v, id, lease, k)
  {
    assert forall at :: at in u.leases <==> at in w.leases || at == At(k, lease);
    assert At(k, lease) in u.leases;
  }

  lemma Granted1(cfg: Config, calm: set<Pair>, from: World, w: World, o: OpId, lease: Lease, k: nat) returns (v: World)
    requires cfg.Valid() && Leads(cfg, calm, from, w) && w.c.invalid !! calm && o in w.ops && w.ops[o].Reserving?
    requires k < cfg.ranks && w.ops[o].answers == Fill(cfg.ranks, k, Got(lease)) && At(k, lease) !in w.granted
    ensures Leads(cfg, calm, from, v)
    ensures v == w.(leases := v.leases, granted := w.granted + {At(k, lease)}, writes := v.writes, ops := v.ops,
                    used := w.used + {o})
    ensures v.leases.Keys == w.leases.Keys + {At(k, lease)}
    ensures v.writes == if w.ops[o].id.writing then w.writes[At(k, lease) := w.ops[o].id.pair] else w.writes
    ensures v.ops == w.ops[o := Reserving(w.ops[o].id, w.ops[o].started, Fill(cfg.ranks, k + 1, Got(lease)))]
  {
    hide Leads;
    var step := Granted(At(k, lease), w.now + cfg.ttl, true);
    v := ApplyStep(cfg, w, o, w.ops[o], step);
    assert w.ops[o].answers[k := Got(lease)] == Fill(cfg.ranks, k + 1, Got(lease));
    Take(cfg, calm, from, w, o, step, v);
  }

  lemma Mints(cfg: Config, calm: set<Pair>, from: World, w: World, o: OpId, token: Token, lease: Lease)
    returns (v: World, t: Ticket)
    requires cfg.Valid() && Leads(cfg, calm, from, w) && w.c.invalid !! calm && o in w.ops
    requires w.ops[o].Reserving? && w.ops[o].started == w.now
    requires w.ops[o].answers == Fill(cfg.ranks, cfg.ranks, Got(lease))
    requires !w.c.closed && w.ops[o].id.pair !in w.c.invalid && forall k :: k in w.issued ==> k.token != token
    ensures Leads(cfg, calm, from, v)
    ensures v == w.(c := Commit(w.c, t, w.now + cfg.ttl - cfg.margin), issued := w.issued + {t}, origin := v.origin,
                    ops := w.ops - {o}, used := w.used + {o})
    ensures t.token == token && t.Id() == w.ops[o].id && t.leases == seq(cfg.ranks, _ => lease)
    ensures t.sizes == Sizes(cfg, t.Id())
  {
    hide Leads, Sizes, Commit;
    var Reserving(id, started, answers) := w.ops[o];
    assert Complete(answers) && Answered(answers);
    t := Minted(cfg, token, id, answers);
    assert t.leases == seq(cfg.ranks, _ => lease);
    v := ApplyCommit(cfg, w, o, id, started, answers, token);
    assert Commit(w.c, t, w.now + cfg.ttl - cfg.margin).invalid == w.c.invalid by { CommitVetoes(w.c, t, w.now + cfg.ttl - cfg.margin); }
    Take(cfg, calm, from, w, o, Go(token), v);
  }

  lemma CommitVetoes(c: Coord, t: Ticket, until: real)
    ensures Commit(c, t, until).invalid == c.invalid
  {
  }

  /** A reservation that every rank has answered becomes a ticket exactly if all of them granted, the
      coordinator is open, the pair is not vetoed and the window counted from its start is still open;
      otherwise it turns to giving back what it was granted. */
  lemma Decides(cfg: Config, w: World, o: OpId, token: Token)
    requires cfg.Valid() && o in w.ops && w.ops[o].Reserving? && Enabled(cfg, w, Advance(o, Go(token)))
    ensures
      var Reserving(id, started, answers) := w.ops[o];
      var until, v := started + cfg.ttl - cfg.margin, Apply(cfg, w, Advance(o, Go(token)));
      if (forall r :: 0 <= r < |answers| ==> answers[r].Got?) && !w.c.closed && id.pair !in w.c.invalid && w.now < until then
        && v.ops == w.ops - {o} && exists t: Ticket ::
             && t.token == token && t.Id() == id && t.sizes == Sizes(cfg, id) && |t.leases| == |answers|
             && (forall r :: 0 <= r < |answers| ==> t.leases[r] == answers[r].lease)
             && v.issued == w.issued + {t} && v.c == Commit(w.c, t, until)
      else
        v.c == w.c && v.issued == w.issued && v.ops == w.ops[o := Calling(GiveUp(id), Rollbacks(answers, 0), true)]
  {
    hide Rollbacks, Sizes, SeenLeases, Commit;
    var Reserving(id, started, answers) := w.ops[o];
    if Complete(answers) {
      var t := Minted(cfg, token, id, answers);
      assert t.token == token && t.Id() == id && t.sizes == Sizes(cfg, id) && |t.leases| == |answers|;
    }
  }

  // What a reservation that every rank granted leaves behind.
  ghost predicate Obtained(cfg: Config, w: World, v: World, o: OpId, id: Identity, t: Ticket, lease: Lease) {
    && v.c == Commit(Admit(cfg, w.c, id), t, w.now + cfg.ttl - cfg.margin)
    && v.ops == w.ops - {o} && w.used <= v.used <= w.used + {o} && v.issued == w.issued + {t}
    && v.now == w.now && v.late == w.late && v.taken == w.taken
    && t.Id() == id && t.leases == seq(cfg.ranks, _ => lease) && t.sizes == Sizes(cfg, id)
    && (forall at :: at in v.granted <==> at in w.granted || (at.rank < cfg.ranks && at.lease == lease))
    && (forall at :: Owns(t, at) ==>
          at in v.leases && (id.writing ==> at in v.writes && v.writes[at] == id.pair))
  }

  /** An admitted reservation that every rank grants becomes a ticket. */
  lemma Obtains(cfg: Config, calm: set<Pair>, from: World, w: World, o: OpId, id: Identity, token: Token, lease: Lease)
    returns (v: World, t: Ticket)
    requires cfg.Valid() && Leads(cfg, calm, from, w) && w.c.invalid !! calm && o in w.ops && w.ops[o] == Admitting(id)
    requires AdmitOk(cfg, w.c, id) && (forall k :: k in w.issued ==> k.token != token)
    requires forall r :: 0 <= r < cfg.ranks ==> At(r, lease) !in w.granted
    ensures Leads(cfg, calm, from, v) && Obtained(cfg, w, v, o, id, t, lease) && t.token == token
  {
    hide Leads, Commit, Sizes, AdmitOk, Admit;
    AdmittedOpen(cfg, w.c, id);
    var a := Admits(cfg, calm, from, w, o, id);
    assert Fill(cfg.ranks, 0, Missing) == Fill(cfg.ranks, 0, Got(lease));
    var b := Grants(cfg, calm, from, a, o, lease, 0);
    v, t := Mints(cfg, calm, from, b, o, token, lease);
    assert v.ops == w.ops - {o};
  }

  lemma AdmittedOpen(cfg: Config, c: Coord, id: Identity)
    requires AdmitOk(cfg, c, id)
    ensures !Admit(cfg, c, id).closed && id.pair !in Admit(cfg, c, id).invalid
    ensures Admit(cfg, c, id).invalid == c.invalid && Admit(cfg, c, id).retry == c.retry
  {
  }

  // ---- completed stores ---------------------------------------------------------------------

  /** A completed store run without interruption leaves the books of the object's `CompleteStore`: the veto
      of one that is not durable comes first, and the ticket goes only if the veto was acknowledged. */
  lemma CompleteRuns(cfg: Config, from: World, w: World, o: OpId, t: Ticket, durable: bool, vetoAcks: seq<bool>,
                     vetoAgain: seq<bool>, acks: seq<bool>, again: seq<bool>) returns (v: World)
    requires cfg.Valid() && Leads(cfg, {}, from, w) && o !in w.used && o !in w.ops && t in w.issued
    requires |vetoAcks| == |Invalidations(cfg.ranks, t.pair, 0)| && cfg.drainLimit <= |vetoAgain|
    requires |acks| == |Releases(t.leases, 0)| && cfg.drainLimit <= |again|
    ensures Leads(cfg, {}, from, v) && Over(w, v, o)
    ensures
      var (c, accepted) := if durable then (w.c, true) else InvalidateBooks(cfg, w.c, t.pair, vetoAcks, vetoAgain);
      v.c == ReleaseBooks(cfg, c, t, accepted, acks, again).0
  {
    hide Leads, ReleaseBooks, InvalidateBooks, Invalidations, Releases;
    var a := Apply(cfg, w, Begin(o, CompleteStore(t, durable)));
    LeadsOn(cfg, {}, from, w, Begin(o, CompleteStore(t, durable)));
    var b, accepted := a, true;
    if !durable {
      b, accepted := VetoRuns(cfg, from, a, o, t, vetoAcks, vetoAgain);
    }
    v := ReleaseRuns(cfg, {}, from, b, o, t, accepted, acks, again);
    assert v.ops == w.ops - {o};
  }

  lemma VetoRuns(cfg: Config, from: World, w: World, o: OpId, t: Ticket, acks: seq<bool>, again: seq<bool>)
    returns (v: World, accepted: bool)
    requires cfg.Valid() && Leads(cfg, {}, from, w) && o in w.ops && w.ops[o] == Vetoing(t.pair, Some(t))
    requires |acks| == |Invalidations(cfg.ranks, t.pair, 0)| && cfg.drainLimit <= |again|
    ensures Leads(cfg, {}, from, v) && Aside(w, v, o) && v.ops[o] == Retiring(t, accepted)
    ensures (v.c, accepted) == InvalidateBooks(cfg, w.c, t.pair, acks, again)
  {
    hide Leads, Cleanup, Invalidations, Acknowledge, RaiseOk;
    var a := VetoBegins(cfg, from, w, o, t);
    if RaiseOk(cfg, w.c, t.pair) {
      var b := CleanupRuns(cfg, {}, from, a, o, acks, again);
      AsideTwice(w, a, b, o);
      accepted := b.ops[o].acked;
      v := VetoEnds(cfg, from, b, o, t);
      AsideTwice(w, b, v, o);
    } else {
      v, accepted := a, false;
    }
  }

  lemma VetoBegins(cfg: Config, from: World, w: World, o: OpId, t: Ticket) returns (a: World)
    requires cfg.Valid() && Leads(cfg, {}, from, w) && o in w.ops && w.ops[o] == Vetoing(t.pair, Some(t))
    ensures Leads(cfg, {}, from, a) && Aside(w, a, o) && a.c == Raise(cfg, w.c, t.pair)
    ensures a.ops[o] == if RaiseOk(cfg, w.c, t.pair)
                        then Calling(Veto(t.pair, Some(t)), Invalidations(cfg.ranks, t.pair, 0), true)
                        else Retiring(t, false)
  {
    hide Leads, Invalidations, RaiseOk;
    a := ApplyRaise(cfg, w, o, t.pair, Some(t));
    Take(cfg, {}, from, w, o, Go(0), a);
  }

  lemma VetoEnds(cfg: Config, from: World, w: World, o: OpId, t: Ticket) returns (v: World)
    requires cfg.Valid() && Leads(cfg, {}, from, w) && o in w.ops
    requires w.ops[o].Settled? && w.ops[o].goal == Veto(t.pair, Some(t))
    ensures Leads(cfg, {}, from, v) && Aside(w, v, o) && v.ops[o] == Retiring(t, w.ops[o].acked)
    ensures v.c == if w.ops[o].acked then Acknowledge(w.c, t.pair) else w.c
  {
    hide Leads, Acknowledge;
    v := ApplyFinish(cfg, w, o, w.ops[o].goal, w.ops[o].acked);
    Take(cfg, {}, from, w, o, Go(0), v);
  }

  // ---- renewals -----------------------------------------------------------------------------

  // The replies when the first k ranks have answered.
  function Told(n: nat, k: nat, yes: seq<bool>): (s: seq<Reply>)
    requires k <= n == |yes|
    ensures |s| == n
  {
    seq(n, r requires 0 <= r < n => if r < k then (if yes[r] then Yes else No) else Unknown)
  }

  // The leases of the ticket are held at the ranks that will renew.
  ghost predicate Renewable(w: World, t: Ticket, yes: seq<bool>) {
    |yes| == |t.leases| && forall r :: 0 <= r < |yes| && yes[r] ==>
      At(r, t.leases[r]) in w.leases && w.now < w.leases[At(r, t.leases[r])]
  }

  // The rank's reply to a renewal; a yes extends the lease.
  lemma Replies(cfg: Config, calm: set<Pair>, from: World, w: World, o: OpId, k: nat, yes: seq<bool>) returns (v: World)
    requires cfg.Valid() && Leads(cfg, calm, from, w) && w.c.invalid !! calm && o in w.ops && w.ops[o].Renewing?
    requires k < |yes| == cfg.ranks && w.ops[o].replies == Told(cfg.ranks, k, yes) && Renewable(w, w.ops[o].ticket, yes)
    ensures Leads(cfg, calm, from, v) && v.c == w.c && Aside(w, v, o)
    ensures v.ops[o] == Renewing(w.ops[o].ticket, w.ops[o].back, w.ops[o].started, Told(cfg.ranks, k + 1, yes))
    ensures Renewable(v, w.ops[o].ticket, yes)
  {
    hide Leads;
    var at := At(k, w.ops[o].ticket.leases[k]);
    var until := w.now + cfg.ttl;
    var expiry := if yes[k] && w.leases[at] > until then w.leases[at] else until;
    var step := RenewReplied(k, yes[k], yes[k], expiry);
    v := ApplyStep(cfg, w, o, w.ops[o], step);
    assert w.ops[o].replies[k := if yes[k] then Yes else No] == Told(cfg.ranks, k + 1, yes);
    Take(cfg, calm, from, w, o, step, v);
  }

  lemma {:induction false} RepliesRun(cfg: Config, calm: set<Pair>, from: World, w: World, o: OpId, k: nat, yes: seq<bool>)
    returns (v: World)
    requires cfg.Valid() && Leads(cfg, calm, from, w) && w.c.invalid !! calm && o in w.ops && w.ops[o].Renewing?
    requires k <= |yes| == cfg.ranks && w.ops[o].replies == Told(cfg.ranks, k, yes) && Renewable(w, w.ops[o].ticket, yes)
    ensures Leads(cfg, calm, from, v) && v.c == w.c && Aside(w, v, o)
    ensures v.ops[o] == Renewing(w.ops[o].ticket, w.ops[o].back, w.ops[o].started, Told(cfg.ranks, cfg.ranks, yes))
    decreases cfg.ranks - k
  {
    hide Leads, Renewable;
    if k == cfg.ranks {
      v := w;
      assert w.ops[o := w.ops[o]] == w.ops;
    } else {
      var u := Replies(cfg, calm, from, w, o, k, yes);
      v := RepliesRun(cfg, calm, from, u, o, k + 1, yes);
      AsideTwice(w, u, v, o);
    }
  }

  // Where a renewal's verdict leads.
  ghost predicate Reported(w: World, v: World, o: OpId, t: Ticket, back: Option<Identity>, ok: bool) {
    if back.None? then v.ops == w.ops - {o}
    else v.ops == w.ops[o := if ok then Rechecking(t, back.value) else Retiring(t, true)]
  }

  /** A renewal inside the proved window, or of a ticket that is not good, asks nobody and changes nothing. */
  lemma RenewsAtOnce(cfg: Config, calm: set<Pair>, from: World, w: World, o: OpId, t: Ticket, back: Option<Identity>)
    returns (v: World)
    requires cfg.Valid() && Leads(cfg, calm, from, w) && w.c.invalid !! calm && o in w.ops
    requires w.ops[o] == RenewChecking(t, back)
    requires !RenewOk(w.c, t) || (t.token in w.c.valid && w.now < w.c.valid[t.token])
    ensures Leads(cfg, calm, from, v) && v == w.(ops := v.ops, used := v.used)
    ensures Reported(w, v, o, t, back, RenewOk(w.c, t))
  {
    hide Leads, RenewOk;
    v := ApplyRenewCheck(w, o, t, back);
    Take(cfg, calm, from, w, o, Go(0), v);
  }

  /** Otherwise, run without interruption but for the time that passes before its second look, a renewal
      leaves the books of the object's `Renew`, for any replies. */
  lemma RenewRuns(cfg: Config, calm: set<Pair>, from: World, w: World, o: OpId, t: Ticket, back: Option<Identity>,
                  yes: seq<bool>, d: real, again: seq<bool>) returns (v: World)
    requires cfg.Valid() && Leads(cfg, calm, from, w) && w.c.invalid !! calm && o in w.ops
    requires w.ops[o] == RenewChecking(t, back) && RenewOk(w.c, t)
    requires t.token in w.c.valid && w.c.valid[t.token] <= w.now
    requires |yes| == cfg.ranks && Renewable(w, t, yes) && 0.0 <= d && cfg.drainLimit <= |again|
    ensures Leads(cfg, calm, from, v) && v.now == w.now + d && v.issued == w.issued
    ensures
      var until := w.now + cfg.ttl - cfg.margin;
      var ok := (forall r :: 0 <= r < cfg.ranks ==> yes[r]) && w.now + d < until;
      var c := if ok then w.c.(valid := w.c.valid[t.token := until]) else w.c;
      v.c == Drain(cfg, c, Budget(cfg, c), again).0 && Reported(w, v, o, t, back, ok)
  {
    hide Leads, RenewOk, Drain, Aside, Renewable, Reported, Told;
    var a := RenewSends(cfg, calm, from, w, o, t, back, yes);
    var b := RepliesRun(cfg, calm, from, a, o, 0, yes);
    OpsAside(a, b, o);
    var u := Passes(cfg, calm, from, b, d);
    ToldAll(cfg.ranks, yes);
    var e, ok := RenewCommits(cfg, calm, from, u, o, t, back, w.now, Told(cfg.ranks, cfg.ranks, yes));
    v := RenewCloses(cfg, calm, from, e, o, t, back, ok, again);
    SameReport(w, e, v, o, t, back, ok);
  }

  // One pass over the log, and the verdict is reported.
  lemma RenewCloses(cfg: Config, calm: set<Pair>, from: World, w: World, o: OpId, t: Ticket, back: Option<Identity>,
                    ok: bool, again: seq<bool>) returns (v: World)
    requires cfg.Valid() && Leads(cfg, calm, from, w) && w.c.invalid !! calm && o in w.ops && cfg.drainLimit <= |again|
    requires w.ops[o] == Calling(Renewed(ok, t, back), [], true)
    ensures Leads(cfg, calm, from, v) && v.now == w.now && v.issued == w.issued
    ensures v.c == Drain(cfg, w.c, Budget(cfg, w.c), again).0 && Reported(w, v, o, t, back, ok)
  {
    hide Leads, Drain, Aside;
    var f := Drains(cfg, calm, from, w, o);
    OpsAside(w, f, o);
    var g := DrainRuns(cfg, calm, from, f, o, again);
    OpsAside(f, g, o);
    DrainShape(cfg, f.c, f.ops[o].budget, again);
    v := AfterRenew(g, o, ok, t, back);
    Take(cfg, calm, from, g, o, Go(0), v);
    assert g.ops - {o} == w.ops - {o};
  }

  lemma SameReport(w: World, e: World, v: World, o: OpId, t: Ticket, back: Option<Identity>, ok: bool)
    requires Reported(e, v, o, t, back, ok) && o in e.ops && e.ops == w.ops[o := e.ops[o]]
    ensures Reported(w, v, o, t, back, ok)
  {
    assert e.ops - {o} == w.ops - {o};
    if back.Some? {
      var next := if ok then Rechecking(t, back.value) else Retiring(t, true);
      assert e.ops[o := next] == w.ops[o := next];
    }
  }

  lemma OpsAside(w: World, v: World, o: OpId)
    requires Aside(w, v, o)
    ensures o in v.ops && v.ops == w.ops[o := v.ops[o]] && v.now == w.now && v.issued == w.issued
  {
  }

  lemma RenewSends(cfg: Config, calm: set<Pair>, from: World, w: World, o: OpId, t: Ticket, back: Option<Identity>,
                   yes: seq<bool>) returns (a: World)
    requires cfg.Valid() && Leads(cfg, calm, from, w) && w.c.invalid !! calm && o in w.ops
    requires w.ops[o] == RenewChecking(t, back) && RenewOk(w.c, t)
    requires t.token in w.c.valid && w.c.valid[t.token] <= w.now && |yes| == cfg.ranks && Renewable(w, t, yes)
    ensures Leads(cfg, calm, from, a) && a.c == w.c && a.now == w.now && a.issued == w.issued && Renewable(a, t, yes)
    ensures a.ops == w.ops[o := Renewing(t, back, w.now, Told(cfg.ranks, 0, yes))]
  {
    hide Leads, RenewOk;
    var u := ApplyRenewCheck(w, o, t, back);
    Take(cfg, calm, from, w, o, Go(0), u);
    a := ApplyRenewSend(cfg, u, o, t, back);
    Take(cfg, calm, from, u, o, Go(0), a);
    assert a.ops[o].replies == Told(cfg.ranks, 0, yes);
    assert u.ops[o := a.ops[o]] == w.ops[o := a.ops[o]];
  }

  lemma Passes(cfg: Config, calm: set<Pair>, from: World, w: World, d: real) returns (v: World)
    requires cfg.Valid() && Leads(cfg, calm, from, w) && w.c.invalid !! calm && 0.0 <= d
    ensures Leads(cfg, calm, from, v) && v == w.(now := w.now + d)
  {
    hide Leads;
    v := w.(now := w.now + d);
    LeadsOn(cfg, calm, from, w, Outside(Tick(d)));
  }

  lemma RenewStillOk(cfg: Config, c: Coord, t: Ticket, now: real, until: real)
    requires RenewOk(c, t)
    ensures RenewCommitOk(c, t, now, until) <==> now < until
  {
  }

  // The second look at the ticket decides.
  lemma RenewCommits(cfg: Config, calm: set<Pair>, from: World, w: World, o: OpId, t: Ticket, back: Option<Identity>,
                     started: real, replies: seq<Reply>) returns (e: World, ok: bool)
    requires cfg.Valid() && Leads(cfg, calm, from, w) && w.c.invalid !! calm && o in w.ops && RenewOk(w.c, t)
    requires w.ops[o] == Renewing(t, back, started, replies) && forall r :: 0 <= r < |replies| ==> !replies[r].Unknown?
    ensures Leads(cfg, calm, from, e) && e.now == w.now && e.issued == w.issued
    ensures ok <==> (forall r :: 0 <= r < |replies| ==> replies[r].Yes?) && w.now < started + cfg.ttl - cfg.margin
    ensures e.c == if ok then w.c.(valid := w.c.valid[t.token := started + cfg.ttl - cfg.margin]) else w.c
    ensures e.ops == w.ops[o := Calling(Renewed(ok, t, back), [], true)]
  {
    hide Leads, RenewOk;
    RenewStillOk(cfg, w.c, t, w.now, started + cfg.ttl - cfg.margin);
    hide RenewCommitOk;
    e := ApplyRenewCommit(cfg, w, o, t, back, started, replies);
    ok := e.ops[o].goal.ok;
    Take(cfg, calm, from, w, o, Go(0), e);
  }

  // A renewal decides only after every rank has replied, and then as the replies and the clock say.
  lemma RenewDecides(cfg: Config, w: World, o: OpId)
    requires cfg.Valid() && o in w.ops && w.ops[o].Renewing? && Enabled(cfg, w, Advance(o, Go(0)))
    ensures
      var Renewing(t, back, started, replies) := w.ops[o];
      var until, v := started + cfg.ttl - cfg.margin, Apply(cfg, w, Advance(o, Go(0)));
      var ok := (forall r :: 0 <= r < |replies| ==> replies[r].Yes?) && !w.c.closed && t.token in w.c.tickets
                && t.token !in w.c.retiring && t.pair !in w.c.invalid && w.now < until;
      && (forall r :: 0 <= r < |replies| ==> !replies[r].Unknown?)
      && v.c == (if ok then w.c.(valid := w.c.valid[t.token := until]) else w.c)
      && v.ops == w.ops[o := Calling(Renewed(ok, t, back), [], true)]
  {
  }

  lemma ToldAll(n: nat, yes: seq<bool>)
    requires |yes| == n
    ensures forall r :: 0 <= r < n ==> !Told(n, n, yes)[r].Unknown?
    ensures (forall r :: 0 <= r < n ==> Told(n, n, yes)[r].Yes?) <==> forall r :: 0 <= r < n ==> yes[r]
  {
    assert forall r :: 0 <= r < n ==> (Told(n, n, yes)[r].Yes? <==> yes[r]);
  }

  /** The second look at a ticket that was found and renewed ends its reservation exactly if the index still
      names it and it is neither being released nor vetoed; otherwise a new ticket is sought. */
  lemma Rechecks(cfg: Config, calm: set<Pair>, from: World, w: World, o: OpId, t: Ticket, id: Identity) returns (v: World)
    requires cfg.Valid() && Leads(cfg, calm, from, w) && w.c.invalid !! calm && o in w.ops && w.ops[o] == Rechecking(t, id)
    ensures Leads(cfg, calm, from, v) && v == w.(ops := v.ops, used := v.used)
    ensures v.ops == if id in w.c.identities && w.c.identities[id] == t.token && t.token !in w.c.retiring
                        && id.pair !in w.c.invalid && !w.c.closed
                     then w.ops - {o} else w.ops[o := Admitting(id)]
  {
    hide Leads;
    v := ApplyRecheck(w, o, t, id);
    Take(cfg, calm, from, w, o, Go(0), v);
  }
}
