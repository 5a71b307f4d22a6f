/** The condition under which deadlines are safe is the right one: a call that is still outstanding when
    the veto of its pair lifts can revoke the lease behind a live deadline. */
module RemoteExposure {
  import opened Basics
  import opened Coordination
  import opened RemoteProtocol
  import opened RemoteCleanup
  import opened RemoteInvariant
  import opened RemoteTheorems
  import opened RemoteDeadlines
  import opened RemoteWalks

  // A new store for this identity would be admitted.
  ghost predicate Welcome(cfg: Config, c: Coord, id: Identity) {
    id.writing && Known(cfg, id) && Lookup(c, id) == Absent && AdmitOk(cfg, c, id)
  }

  // The deadline is live, but some rank does not hold the lease.
  ghost predicate Bare(cfg: Config, w: World, t: Ticket) {
    && Deadline(w.c, t).Some? && w.now < Deadline(w.c, t).value && |t.leases| == cfg.ranks
    && exists r: nat :: r < cfg.ranks && At(r, t.leases[r]) !in w.leases
  }

  // Only the log and the acknowledgements changed.
  ghost predicate SameBooks(c: Coord, d: Coord) { d == c.(retry := d.retry, acked := d.acked) }

  lemma WelcomeStill(cfg: Config, c: Coord, d: Coord, id: Identity)
    requires Welcome(cfg, c, id) && SameBooks(c, d)
    ensures Welcome(cfg, d, id)
  {
  }

  // ---- a call under way arrives ----------------------------------------------------------------

  lemma Fresh(cfg: Config, w: World) returns (o: OpId, token: Token, lease: Lease)
    requires Inv(cfg, w)
    ensures o !in w.used && o !in w.ops && (forall k :: k in w.issued ==> k.token != token)
    ensures forall r: nat :: At(r, lease) !in w.granted
  {
    o := Unused(w.used);
    var tokens := set k | k in w.issued :: k.token;
    token := Unused(tokens);
    assert forall k :: k in w.issued ==> k.token in tokens;
    var leases := set at | at in w.granted :: at.lease;
    lease := Unused(leases);
    assert forall at :: at in w.granted ==> at.lease in leases;
  }

  lemma ReachedInv(cfg: Config, calm: set<Pair>, from: World, w: World)
    requires cfg.Valid() && Reachable(cfg, from) && Leads(cfg, calm, from, w)
    ensures Inv(cfg, w) && w.c.invalid !! calm && Reachable(cfg, w)
  {
    hide Reachable, Leads, Inv;
    LeadsReach(cfg, calm, from, w);
    ReachableInv(cfg, w);
  }

  /** A call under way arrives after a new ticket was handed out. */
  lemma Lands(cfg: Config, from: World, w: World, id: Identity, r: nat) returns (v: World, t: Ticket)
    requires cfg.Valid() && Reachable(cfg, from) && Leads(cfg, {id.pair}, from, w) && Welcome(cfg, w.c, id)
    requires r < cfg.ranks && Invalidate(r, id.pair) in w.late
    ensures Leads(cfg, {id.pair}, from, v) && t !in w.issued && t.Id() == id && Bare(cfg, v, t)
  {
    hide Reachable, Leads, Inv, AdmitOk, Lookup, Known, Obtained, Commit, Admit;
    ReachedInv(cfg, {id.pair}, from, w);
    var o, token, lease := Fresh(cfg, w);
    var a := Asks(cfg, {id.pair}, from, w, o, id);
    var b;
    b, t := Obtains(cfg, {id.pair}, from, a, o, id, token, lease);
    var e := Outside(Arrives(r, id.pair, false));
    ObtainedLate(cfg, a, b, o, id, t, lease, r);
    v := Apply(cfg, b, e);
    LeadsOn(cfg, {id.pair}, from, b, e);
    NotRetiring(cfg, w, token);
    DeadlineOf(cfg, w.c, id, t, w.now + cfg.ttl - cfg.margin);
    assert At(r, t.leases[r]) !in v.leases;
  }

  lemma ObtainedLate(cfg: Config, a: World, b: World, o: OpId, id: Identity, t: Ticket, lease: Lease, r: nat)
    requires Obtained(cfg, a, b, o, id, t, lease) && id.writing && r < cfg.ranks && Invalidate(r, id.pair) in a.late
    requires a.c.invalid !! {id.pair}
    ensures Invalidate(r, id.pair) in b.late && b.c.invalid !! {id.pair} && |t.leases| == cfg.ranks
    ensures At(r, t.leases[r]) in Victims(b, r, id.pair) && t.Id() == id && b.now == a.now
    ensures b.c == Commit(Admit(cfg, a.c, id), t, a.now + cfg.ttl - cfg.margin)
  {
    assert Owns(t, At(r, t.leases[r]));
    hide Charge, AdmitOk;
  }

  lemma DeadlineOf(cfg: Config, c: Coord, id: Identity, t: Ticket, until: real)
    requires AdmitOk(cfg, c, id) && t.Id() == id && t.token !in c.retiring
    ensures Deadline(Commit(Admit(cfg, c, id), t, until), t) == Some(until)
  {
    hide Charge;
  }

  lemma NotRetiring(cfg: Config, w: World, token: Token)
    requires Inv(cfg, w) && forall k :: k in w.issued ==> k.token != token
    ensures token !in w.c.retiring && 0.0 < cfg.margin < cfg.ttl
  {
    hide OpsOk, Apart, PendingOk, LeasesOk, ValidOk, CreditsOk, LogOk, NothingForgotten;
  }

  // ---- a failing reservation replays the log -----------------------------------------------------

  // A reservation that every rank refuses, up to its pass over the log.
  lemma Attempts(cfg: Config, from: World, w: World, o: OpId, id: Identity) returns (v: World)
    requires cfg.Valid() && Leads(cfg, {id.pair}, from, w) && w.c.invalid !! {id.pair} && Welcome(cfg, w.c, id)
    requires o !in w.used && o !in w.ops
    ensures Leads(cfg, {id.pair}, from, v) && v.c == Admit(cfg, w.c, id)
    ensures v.ops == w.ops[o := Draining(GiveUp(id), true, Budget(cfg, v.c))]
    ensures v.late == w.late && v.issued == w.issued
  {
    hide Leads, AdmitOk, Lookup, Known, Admit, Rollbacks, Complete;
    AdmittedOpen(cfg, w.c, id);
    var a := Asks(cfg, {id.pair}, from, w, o, id);
    var b := Admits(cfg, {id.pair}, from, a, o, id);
    var d := Denies(cfg, {id.pair}, from, b, o, 0);
    AllMissing(cfg);
    var e := Refuses(cfg, {id.pair}, from, d, o);
    v := Drains(cfg, {id.pair}, from, e, o);
    assert v.ops == w.ops[o := v.ops[o]];
  }

  lemma AllMissing(cfg: Config)
    requires cfg.Valid()
    ensures
      var answers := Fill(cfg.ranks, cfg.ranks, Missing);
      Answered(answers) && !Complete(answers) && Rollbacks(answers, 0) == []
  {
    var answers := Fill(cfg.ranks, cfg.ranks, Missing);
    assert !answers[0].Got?;
    RollbacksAllMissing(answers, 0);
  }

  lemma {:induction false} RollbacksAllMissing(answers: seq<Answer>, from: nat)
    requires from <= |answers| && forall r :: 0 <= r < |answers| ==> answers[r].Missing?
    ensures Rollbacks(answers, from) == []
    decreases |answers| - from
  {
    if from < |answers| {
      RollbacksAllMissing(answers, from + 1);
    }
  }

  // The end of a failing reservation.
  lemma Ends(cfg: Config, from: World, w: World, o: OpId, id: Identity) returns (v: World)
    requires cfg.Valid() && Leads(cfg, {id.pair}, from, w) && w.c.invalid !! {id.pair} && o in w.ops
    requires w.ops[o].Settled? && w.ops[o].goal == GiveUp(id)
    ensures Leads(cfg, {id.pair}, from, v) && v.c == Abandon(cfg, w.c, id) && v.ops == w.ops - {o}
    ensures v.late == w.late && v.issued == w.issued
  {
    hide Leads, Abandon;
    AbandonVetoes(cfg, w.c, id);
    v := ApplyFinish(cfg, w, o, w.ops[o].goal, w.ops[o].acked);
    Take(cfg, {id.pair}, from, w, o, Go(0), v);
  }

  // The books before, while and after a reservation failed differ in the log only.
  lemma Undone(cfg: Config, c: Coord, d: Coord, id: Identity)
    requires AdmitOk(cfg, c, id) && d == Admit(cfg, c, id).(retry := d.retry)
    ensures SameBooks(c, Abandon(cfg, d, id)) && Abandon(cfg, d, id).retry == d.retry
  {
    hide Charge, Drained;
    assert c.pending + {id} - {id} == c.pending;
    assert c.invalid - {id.pair} == c.invalid;
  }

  // The call is made once more and not acknowledged; a copy of it stays under way.
  lemma Trails(cfg: Config, calm: set<Pair>, from: World, w: World, o: OpId) returns (v: World)
    requires cfg.Valid() && Leads(cfg, calm, from, w) && w.c.invalid !! calm && o in w.ops
    requires (w.ops[o].Calling? && w.ops[o].work != [] && w.ops[o].work[0].Invalidate?)
          || (w.ops[o].Replaying? && w.ops[o].entry.Invalidate?)
    ensures
      var op := w.ops[o];
      var e := if op.Calling? then op.work[0] else op.entry;
      && Leads(cfg, calm, from, v) && v.c == w.c && v.issued == w.issued && v.late == w.late + {e}
      && v.ops == w.ops[o := if op.Calling? then Queueing(op.goal, op.work[1..], e) else Requeueing(op.goal, e)]
  {
    hide Leads;
    v := ApplyStep(cfg, w, o, w.ops[o], Replied(false, false, true));
    Take(cfg, calm, from, w, o, Replied(false, false, true), v);
  }

  // Somewhere in this pass the k-th logged call is made again, or it comes nearer to the front.
  lemma {:induction false} Digs(cfg: Config, from: World, w: World, o: OpId, id: Identity, e: Entry, k: nat)
    returns (v: World, n: nat)
    requires cfg.Valid() && Leads(cfg, {id.pair}, from, w) && w.c.invalid !! {id.pair} && o in w.ops
    requires w.ops[o].Draining? && w.ops[o].goal == GiveUp(id)
    requires k < |w.c.retry| <= cfg.retryCap && w.c.retry[k] == e && e.Invalidate? && !w.c.closed
    ensures Leads(cfg, {id.pair}, from, v) && v.issued == w.issued && w.late <= v.late
    ensures o in v.ops && v.ops == w.ops[o := v.ops[o]]
    ensures v.ops[o].Settled? && v.ops[o].goal == GiveUp(id) && v.c == w.c.(retry := v.c.retry)
    ensures e in v.late || (n + w.ops[o].budget == k && n < |v.c.retry| && v.c.retry[n] == e)
    decreases w.ops[o].budget
  {
    hide Leads, Replay;
    n := k;
    if w.ops[o].budget == 0 {
      v := Settles(cfg, {id.pair}, from, w, o);
    } else if k == 0 {
      var a := Popped(cfg, {id.pair}, from, w, o);
      var b := Trails(cfg, {id.pair}, from, a, o);
      Relogged(cfg, b.c, e);
      v := Logged(cfg, {id.pair}, from, b, o);
    } else {
      var a := Turn(cfg, {id.pair}, from, w, o, true);
      v, n := Digs(cfg, from, a, o, id, e, k - 1);
    }
  }

  // Where there is room, logging loses nothing.
  lemma Relogged(cfg: Config, c: Coord, e: Entry)
    requires 0 < cfg.retryCap && (|c.retry| < cfg.retryCap || e in c.retry)
    ensures Replay(cfg, c, e) == c.(retry := Replay(cfg, c, e).retry) && e in Replay(cfg, c, e).retry
  {
  }

  /** A logged call can be brought under way while no veto of the pair stands. */
  lemma {:induction false} Stirs(cfg: Config, from: World, w: World, id: Identity, e: Entry, k: nat) returns (v: World)
    requires cfg.Valid() && Reachable(cfg, from) && Leads(cfg, {id.pair}, from, w) && Welcome(cfg, w.c, id)
    requires k < |w.c.retry| && w.c.retry[k] == e && e.Invalidate?
    ensures Leads(cfg, {id.pair}, from, v) && e in v.late && Welcome(cfg, v.c, id) && v.issued == w.issued
    decreases k
  {
    hide Reachable, Leads, Inv, Admit, AdmitOk, Lookup, Known;
    ReachedInv(cfg, {id.pair}, from, w);
    var o, token, lease := Fresh(cfg, w);
    AdmittedOpen(cfg, w.c, id);
    var a := Attempts(cfg, from, w, o, id);
    LogBounded(cfg, w);
    var b, n := Digs(cfg, from, a, o, id, e, k);
    Undone(cfg, w.c, b.c, id);
    var d := Ends(cfg, from, b, o, id);
    WelcomeStill(cfg, w.c, d.c, id);
    if e in d.late {
      v := d;
    } else {
      v := Stirs(cfg, from, d, id, e, n);
    }
  }

  lemma LogBounded(cfg: Config, w: World)
    requires Inv(cfg, w)
    ensures |w.c.retry| <= cfg.retryCap
  {
  }

  /** There can always be room in the log. */
  lemma Rooms(cfg: Config, from: World, w: World, id: Identity) returns (v: World)
    requires cfg.Valid() && Reachable(cfg, from) && Leads(cfg, {id.pair}, from, w) && Welcome(cfg, w.c, id)
    ensures Leads(cfg, {id.pair}, from, v) && Welcome(cfg, v.c, id) && v.issued == w.issued && v.ops == w.ops
    ensures |v.c.retry| < cfg.retryCap && w.late <= v.late
  {
    hide Reachable, Leads, Inv, Admit, AdmitOk, Lookup, Known;
    ReachedInv(cfg, {id.pair}, from, w);
    LogBounded(cfg, w);
    if |w.c.retry| < cfg.retryCap {
      v := w;
    } else {
      var o, token, lease := Fresh(cfg, w);
      AdmittedOpen(cfg, w.c, id);
      var a := Attempts(cfg, from, w, o, id);
      var b := Turn(cfg, {id.pair}, from, a, o, true);
      var d := Empties(cfg, from, b, id, o);
      Undone(cfg, w.c, d.c, id);
      v := Ends(cfg, from, d, o, id);
      WelcomeStill(cfg, w.c, v.c, id);
      assert v.ops == w.ops;
    }
  }

  // The rest of a pass in which every call is acknowledged.
  lemma Empties(cfg: Config, from: World, w: World, id: Identity, o: OpId) returns (v: World)
    requires cfg.Valid() && Leads(cfg, {id.pair}, from, w) && w.c.invalid !! {id.pair} && o in w.ops
    requires w.ops[o].Draining? && w.ops[o].budget <= |w.c.retry|
    ensures Leads(cfg, {id.pair}, from, v) && Aside(w, v, o)
    ensures v.c == w.c.(retry := w.c.retry[w.ops[o].budget..])
    ensures v.ops[o].Settled? && v.ops[o].goal == w.ops[o].goal
  {
    hide Leads, Aside;
    var n := w.ops[o].budget;
    var again := seq(n, _ => true);
    v := DrainRuns(cfg, {id.pair}, from, w, o, again);
    DrainOn(cfg, w.c, n, again, n);
  }


  // ---- calls an operation still owes ---------------------------------------------------------------

  lemma {:induction false} OwedCalling(cfg: Config, from: World, w: World, id: Identity, x: OpId, e: Entry) returns (v: World)
    requires cfg.Valid() && Reachable(cfg, from) && Leads(cfg, {id.pair}, from, w) && Welcome(cfg, w.c, id)
    requires x in w.ops && w.ops[x].Calling? && e in w.ops[x].work && e.Invalidate?
    ensures Leads(cfg, {id.pair}, from, v) && e in v.late && Welcome(cfg, v.c, id) && v.issued == w.issued
    decreases |w.ops[x].work|
  {
    hide Reachable, Leads, Inv, Admit, AdmitOk, Lookup, Known;
    ReachedInv(cfg, {id.pair}, from, w);
    var work := w.ops[x].work;
    if work[0] == e {
      v := Trails(cfg, {id.pair}, from, w, x);
    } else {
      assert work == [work[0]] + work[1..];
      var a := AnsweredOne(cfg, {id.pair}, from, w, x, true);
      v := OwedCalling(cfg, from, a, id, x, e);
    }
  }

  /** So can a call that some operation owes. */
  lemma Owed(cfg: Config, from: World, w: World, id: Identity, x: OpId, e: Entry) returns (v: World)
    requires cfg.Valid() && Reachable(cfg, from) && Leads(cfg, {id.pair}, from, w) && Welcome(cfg, w.c, id)
    requires x in w.ops && e in Owes(w.ops[x]) && e.Invalidate?
    ensures Leads(cfg, {id.pair}, from, v) && e in v.late && Welcome(cfg, v.c, id) && v.issued == w.issued
  {
    hide Reachable, Leads, Inv, Admit, AdmitOk, Lookup, Known, Replay;
    ReachedInv(cfg, {id.pair}, from, w);
    if w.ops[x].Calling? {
      v := OwedCalling(cfg, from, w, id, x, e);
    } else if w.ops[x].Replaying? {
      v := Trails(cfg, {id.pair}, from, w, x);
    } else {
      var a := Rooms(cfg, from, w, id);
      ReachedInv(cfg, {id.pair}, from, a);
      Relogged(cfg, a.c, a.ops[x].entry);
      var b := Logged(cfg, {id.pair}, from, a, x);
      WelcomeStill(cfg, a.c, b.c, id);
      if e == a.ops[x].entry {
        var k :| 0 <= k < |b.c.retry| && b.c.retry[k] == e;
        v := Stirs(cfg, from, b, id, e, k);
      } else {
        v := OwedCalling(cfg, from, b, id, x, e);
      }
    }
  }

  // ---- the condition is exact ------------------------------------------------------------------------

  lemma Exposes(cfg: Config, w: World, id: Identity) returns (v: World, t: Ticket)
    requires cfg.Valid() && Reachable(cfg, w) && Welcome(cfg, w.c, id) && Outstanding(cfg, w, id.pair)
    ensures Leads(cfg, {id.pair}, w, v) && t !in w.issued && t.Id() == id && Bare(cfg, v, t)
  {
    hide Reachable, Leads, Lookup, Known, Bare;
    var r: nat :| r < cfg.ranks && Called(w, Invalidate(r, id.pair));
    var e := Invalidate(r, id.pair);
    LeadsHere(cfg, {id.pair}, w);
    var u := w;
    if e in w.late {
    } else if e in w.c.retry {
      var k :| 0 <= k < |w.c.retry| && w.c.retry[k] == e;
      u := Stirs(cfg, w, w, id, e, k);
    } else {
      var x :| x in w.ops && e in Owes(w.ops[x]);
      u := Owed(cfg, w, w, id, x, e);
    }
    v, t := Lands(cfg, w, u, id, r);
  }

  // Along a run without the veto, nothing outstanding appears and nothing of the pair is revoked.
  lemma {:induction false} QuietAlong(cfg: Config, ws: seq<World>, acts: seq<Act>, i: nat, pair: Pair)
    requires cfg.Valid() && Run(cfg, ws, acts) && i <= |acts| && Calm(ws, {pair})
    requires Inv(cfg, ws[0]) && WritesOk(ws[0]) && Intact(ws[0], pair) && !Outstanding(cfg, ws[0], pair)
    ensures Inv(cfg, ws[i]) && WritesOk(ws[i]) && Intact(ws[i], pair) && !Outstanding(cfg, ws[i], pair)
  {
    hide Apply, Enabled, Inv, WritesOk, Intact, Outstanding;
    InvAlong(cfg, ws, acts, i);
    if i > 0 {
      QuietAlong(cfg, ws, acts, i - 1, pair);
      StepOf(cfg, ws, acts, i - 1);
      assert ws[i].c.invalid !! {pair};
      QuietStep(cfg, ws[i - 1], acts[i - 1], pair);
      WritesStep(cfg, ws[i - 1], acts[i - 1]);
      IntactStep(cfg, ws[i - 1], acts[i - 1], pair);
    }
  }

  lemma NotBare(cfg: Config, w: World, t: Ticket)
    requires Inv(cfg, w) && Intact(w, t.pair) && t.pair !in w.c.invalid
    ensures !Bare(cfg, w, t)
  {
    hide Inv;
    if Bare(cfg, w, t) {
      var r: nat :| r < cfg.ranks && At(r, t.leases[r]) !in w.leases;
      TicketIs(cfg, w, t.token);
      WindowAlive(cfg, w, t, r);
      MarginPositive(cfg, w);
    }
  }

  lemma MarginPositive(cfg: Config, w: World)
    requires Inv(cfg, w)
    ensures 0.0 < cfg.margin
  {
  }

  lemma DrainedIntact(cfg: Config, w: World, pair: Pair)
    requires Inv(cfg, w) && Drained(w.c, pair)
    ensures Intact(w, pair)
  {
    hide Inv;
    forall o, at | o in w.ops && Awaits(w.ops[o], at) && w.ops[o].id.pair == pair ensures false {
      AwaitedGranted(cfg, w, o, at);
    }
  }

  lemma ReachableWrites(cfg: Config, w: World)
    requires cfg.Valid() && Reachable(cfg, w)
    ensures Inv(cfg, w) && WritesOk(w)
  {
    hide Inv, WritesOk;
    var ws: seq<World>, acts: seq<Act> :| Run(cfg, ws, acts) && ws[0] == Init() && ws[|acts|] == w;
    WritesAlong(cfg, ws, acts, |acts|);
  }

  lemma NeverBare(cfg: Config, w: World, v: World, t: Ticket)
    requires cfg.Valid() && Reachable(cfg, w) && Drained(w.c, t.pair) && !Outstanding(cfg, w, t.pair)
    requires Leads(cfg, {t.pair}, w, v)
    ensures !Bare(cfg, v, t)
  {
    hide Apply, Enabled, Inv, WritesOk, Intact, Outstanding, Reachable, Bare, Drained, Calm;
    ReachableWrites(cfg, w);
    DrainedIntact(cfg, w, t.pair);
    var ws: seq<World>, acts: seq<Act> :| Run(cfg, ws, acts) && ws[0] == w && ws[|acts|] == v && Calm(ws, {t.pair});
    QuietAlong(cfg, ws, acts, |acts|, t.pair);
    CalmAt(ws, {t.pair}, |acts|);
    NotBare(cfg, v, t);
  }

  lemma CalmAt(ws: seq<World>, calm: set<Pair>, i: nat)
    requires Calm(ws, calm) && i < |ws|
    ensures ws[i].c.invalid !! calm
  {
  }

  /** When the veto of a pair has lifted, a live deadline of a new store can lose its lease before the
      next veto of the pair exactly if some invalidation of it is still owed, logged or under way. */
  lemma ExposedExactly(cfg: Config, w: World, id: Identity)
    requires cfg.Valid() && Reachable(cfg, w) && Drained(w.c, id.pair) && Welcome(cfg, w.c, id)
    ensures Outstanding(cfg, w, id.pair) <==>
      exists v: World, t: Ticket :: Leads(cfg, {id.pair}, w, v) && t.pair == id.pair && Bare(cfg, v, t)
  {
    hide Reachable, Leads, Bare, Outstanding, Drained, Welcome;
    if Outstanding(cfg, w, id.pair) {
      var v, t := Exposes(cfg, w, id);
    } else {
      forall v: World, t: Ticket | Leads(cfg, {id.pair}, w, v) && t.pair == id.pair ensures !Bare(cfg, v, t) {
        NeverBare(cfg, w, v, t);
      }
    }
  }
}
