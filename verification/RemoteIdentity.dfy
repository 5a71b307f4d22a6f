/** One ticket per identity: when a step breaks the correspondence of tickets and identities, and which
    operations must not overlap so that none does. */
module RemoteIdentity {
  import opened Basics
  import opened Coordination
  import opened RemoteProtocol
  import opened RemoteInvariant
  import opened RemoteSteps
  import opened RemoteTheorems
  import opened RemoteOrder

  // At most one ticket for this identity, and the index of identities knows it.
  ghost predicate PairedAt(c: Coord, id: Identity) {
    && (forall t :: t in c.tickets && c.tickets[t].Id() == id ==> id in c.identities && c.identities[id] == t)
    && (id in c.identities ==> c.identities[id] in c.tickets && c.tickets[c.identities[id]].Id() == id)
  }

  // ---- one step ---------------------------------------------------------------------------------

  ghost predicate CommitsOver(cfg: Config, w: World, a: Act, id: Identity) {
    Commits(cfg, w, a) && w.ops[a.o].id == id && id in w.c.identities
  }

  lemma CommitPairs(c: Coord, t: Ticket, until: real, id: Identity)
    requires PairedAt(c, id) && t.token !in c.tickets
    ensures PairedAt(Commit(c, t, until), id) <==> !(t.Id() == id && id in c.identities)
  {
    var d := Commit(c, t, until);
    if t.Id() == id && id in c.identities {
      var other := c.identities[id];
      assert other in d.tickets && d.tickets[other].Id() == id && other != t.token;
    }
  }

  lemma DropPairs(c: Coord, t: Token, id: Identity)
    requires PairedAt(c, id)
    ensures PairedAt(Drop(c, t), id)
  {
    hide Drained, MaxOf;
  }

  /** A step breaks the correspondence for an identity exactly if it commits a reservation for an
      identity that the index already has. */
  lemma PairedExactly(cfg: Config, w: World, a: Act, id: Identity)
    requires Inv(cfg, w) && Enabled(cfg, w, a) && PairedAt(w.c, id)
    ensures PairedAt(Apply(cfg, w, a).c, id) <==> !CommitsOver(cfg, w, a, id)
  {
    hide Apply, Commit, Drop, OpsOk, Apart, PendingOk, LeasesOk, ValidOk, CreditsOk, LogOk, NothingForgotten;
    TicketsStep(cfg, w, a);
    if Commits(cfg, w, a) {
      Unissued(cfg, w, a.step.token);
      CommitPairs(w.c, Newest(cfg, w, a), w.ops[a.o].started + cfg.ttl - cfg.margin, id);
    } else if DropsTicket(w, a) {
      DropPairs(w.c, w.ops[a.o].goal.ticket.token, id);
    }
  }

  // ---- what an operation is about ------------------------------------------------------------------

  // A reservation of this identity, in whatever phase.
  predicate Reserves(op: Op, id: Identity) {
    || ((op.Admitting? || op.Starting? || op.Reserving?) && op.id == id)
    || GoalOf(op) == Some(GiveUp(id))
    || Back(op) == Some(id)
  }

  // A release or a completed store of a ticket of this identity.
  predicate Frees(op: Op, id: Identity) {
    || (op.Retiring? && op.ticket.Id() == id)
    || (op.Vetoing? && op.after.Some? && op.after.value.Id() == id)
    || (GoalOf(op).Some? && GoalOf(op).value.LetGo? && GoalOf(op).value.ticket.Id() == id)
    || (GoalOf(op).Some? && GoalOf(op).value.Veto? && GoalOf(op).value.after.Some? && GoalOf(op).value.after.value.Id() == id)
  }

  predicate CallReserves(call: Call, id: Identity) { call.Reserve? && call.id == id }

  predicate CallFrees(call: Call, id: Identity) {
    (call.GiveBack? || call.CompleteStore?) && call.ticket.Id() == id
  }

  // No reservation of the identity overlaps another one, or a release or completed store of it;
  // everything else may overlap as it likes.
  ghost predicate Orderly(ws: seq<World>, acts: seq<Act>, id: Identity)
    requires |ws| == |acts| + 1
  {
    forall i :: 0 <= i < |acts| && acts[i].Begin? ==> OrderlyCall(ws[i], acts[i].call, id)
  }

  ghost predicate OrderlyCall(w: World, call: Call, id: Identity) {
    && (CallReserves(call, id) ==> forall o :: o in w.ops ==> !Reserves(w.ops[o], id) && !Frees(w.ops[o], id))
    && (CallFrees(call, id) ==> forall o :: o in w.ops ==> !Reserves(w.ops[o], id))
  }

  // ---- links that always hold -----------------------------------------------------------------------

  // An identity is indexed under the token of a ticket that was issued for it, and a reservation that
  // found a ticket found one of its own identity.
  ghost predicate Linked(w: World) {
    && (forall id :: id in w.c.identities ==> exists k :: k in w.issued && k.token == w.c.identities[id] && k.Id() == id)
    && (forall o :: o in w.ops ==> BackOk(w.ops[o]))
  }

  ghost predicate BackOk(op: Op) {
    Back(op).Some? ==> Renews(op).Some? && Renews(op).value.Id() == Back(op).value
  }

  lemma NextBack(cfg: Config, w: World, op: Op, d: Coord, next: Op)
    requires Next(cfg, w, op, d, next) && BackOk(op)
    ensures BackOk(next)
  {
    hide CommitOk, RenewOk, RaiseOk, Rollbacks, Releases, Invalidations, RecheckOk;
  }

  lemma ReplyBack(op: Op, next: Op)
    requires Replies(op, next) && BackOk(op)
    ensures BackOk(next)
  {
  }

  lemma CallBack(cfg: Config, w: World, o: OpId, call: Call)
    requires Inv(cfg, w) && Linked(w)
    ensures o in ApplyCall(cfg, w, o, call).ops ==> o !in w.ops ==> BackOk(ApplyCall(cfg, w, o, call).ops[o])
  {
    hide Inv, Linked, ApplyCall, Lookup;
    if o !in w.ops {
      CallBegins(cfg, w, o, call);
    }
    if call.Reserve? {
      FoundIs(cfg, w, call.id);
    }
  }

  // A reservation finds a ticket of its own identity.
  lemma FoundIs(cfg: Config, w: World, id: Identity)
    requires Inv(cfg, w) && Linked(w)
    ensures Lookup(w.c, id).Existing? ==>
      var t := Lookup(w.c, id).ticket;
      t.Id() == id && id in w.c.identities && w.c.identities[id] == t.token && t.token !in w.c.retiring
  {
    hide OpsOk, Apart, PendingOk, LeasesOk, ValidOk, CreditsOk, LogOk, NothingForgotten, BackOk;
    if Lookup(w.c, id).Existing? {
      var k :| k in w.issued && k.token == w.c.identities[id] && k.Id() == id;
      assert w.c.tickets[k.token] == k;
    }
  }

  lemma LinkedStep(cfg: Config, w: World, a: Act)
    requires Inv(cfg, w) && Linked(w) && Enabled(cfg, w, a)
    ensures Linked(Apply(cfg, w, a))
  {
    hide Apply, OpsOk, Apart, PendingOk, TicketsOk, LeasesOk, ValidOk, CreditsOk, LogOk, NothingForgotten, BackOk, Next,
      Replies, Enabled;
    var v := Apply(cfg, w, a);
    forall x | x in v.ops ensures BackOk(v.ops[x]) {
      OpBack(cfg, w, a, x);
    }
    ForwardStep(cfg, w, a);
    TicketsStep(cfg, w, a);
    if Commits(cfg, w, a) {
      CommitIssues(cfg, w, a);
      LinkCommit(w, v, Newest(cfg, w, a), w.ops[a.o].started + cfg.ttl - cfg.margin);
    } else if DropsTicket(w, a) {
      DropLinks(w.c, w.ops[a.o].goal.ticket.token);
    }
  }

  lemma OpBack(cfg: Config, w: World, a: Act, x: OpId)
    requires Inv(cfg, w) && Linked(w) && Enabled(cfg, w, a) && x in Apply(cfg, w, a).ops
    ensures BackOk(Apply(cfg, w, a).ops[x])
  {
    hide Apply, OpsOk, Apart, PendingOk, TicketsOk, LeasesOk, ValidOk, CreditsOk, LogOk, NothingForgotten, BackOk, Next,
      Replies;
    StepFollows(cfg, w, a, x);
    if a.Begin? && a.o == x && x !in w.ops {
      BeginIs(cfg, w, x, a.call);
      CallBack(cfg, w, x, a.call);
    } else if Moved(cfg, w, a, x) {
      if a.step.Go? {
        NextBack(cfg, w, w.ops[x], Apply(cfg, w, a).c, Apply(cfg, w, a).ops[x]);
      } else {
        ReplyBack(w.ops[x], Apply(cfg, w, a).ops[x]);
      }
    }
  }

  lemma BeginIs(cfg: Config, w: World, o: OpId, call: Call)
    requires cfg.Valid() && CallEnabled(w, o, call)
    ensures Apply(cfg, w, Begin(o, call)) == ApplyCall(cfg, w, o, call)
  {
  }

  lemma CommitIssues(cfg: Config, w: World, a: Act)
    requires cfg.Valid() && Enabled(cfg, w, a) && Commits(cfg, w, a)
    ensures Newest(cfg, w, a) in Apply(cfg, w, a).issued && w.issued <= Apply(cfg, w, a).issued
  {
    hide Commit, Rollbacks, Minted;
  }

  lemma LinkCommit(w: World, v: World, t: Ticket, until: real)
    requires Linked(w) && w.issued <= v.issued && t in v.issued && v.c == Commit(w.c, t, until)
    ensures forall id :: id in v.c.identities ==> exists k :: k in v.issued && k.token == v.c.identities[id] && k.Id() == id
  {
    hide BackOk;
    forall id | id in v.c.identities ensures exists k :: k in v.issued && k.token == v.c.identities[id] && k.Id() == id {
      if id == t.Id() {
        assert t in v.issued && t.token == v.c.identities[id];
      } else {
        var k :| k in w.issued && k.token == w.c.identities[id] && k.Id() == id;
        assert k in v.issued && k.token == v.c.identities[id];
      }
    }
  }

  lemma DropLinks(c: Coord, t: Token)
    ensures forall id :: id in Drop(c, t).identities ==> id in c.identities && Drop(c, t).identities[id] == c.identities[id]
  {
    hide Drained, MaxOf;
  }

  // ---- orderly runs ---------------------------------------------------------------------------------

  // What a reservation in progress may rely on while nobody else touches its identity.
  ghost predicate Sure(c: Coord, op: Op, id: Identity) {
    && ((op.Starting? || op.Reserving?) && op.id == id ==> id !in c.identities)
    && (op.Admitting? && op.id == id ==> id !in c.identities || c.closed || id.pair in c.invalid)
    && (Back(op) == Some(id) && Renews(op).Some? ==>
          id in c.identities && c.identities[id] == Renews(op).value.token && Renews(op).value.token !in c.retiring)
  }

  ghost predicate OneAtATime(w: World, id: Identity) {
    forall o1, o2 | o1 in w.ops && o2 in w.ops && o1 != o2 ::
      !(Reserves(w.ops[o1], id) && (Reserves(w.ops[o2], id) || Frees(w.ops[o2], id)))
  }

  ghost predicate OrderOk(w: World, id: Identity) {
    && PairedAt(w.c, id) && OneAtATime(w, id)
    && (forall o :: o in w.ops ==> Sure(w.c, w.ops[o], id))
  }

  // What an operation is about does not change, except that a reservation may give its old ticket back.
  lemma NextAbout(cfg: Config, w: World, op: Op, d: Coord, next: Op, id: Identity)
    requires Next(cfg, w, op, d, next) && BackOk(op)
    ensures Reserves(next, id) ==> Reserves(op, id)
    ensures Frees(next, id) ==> Frees(op, id) || Reserves(op, id)
  {
    hide CommitOk, RenewOk, RaiseOk, Rollbacks, Releases, Invalidations, RecheckOk;
  }

  lemma ReplyAbout(op: Op, next: Op, id: Identity)
    requires Replies(op, next)
    ensures Reserves(next, id) ==> Reserves(op, id)
    ensures Frees(next, id) ==> Frees(op, id)
    ensures Renews(next) == Renews(op) && Back(next) == Back(op)
  {
  }

  lemma CallAbout(cfg: Config, w: World, o: OpId, call: Call, id: Identity)
    requires o !in w.ops && o in ApplyCall(cfg, w, o, call).ops
    ensures Reserves(ApplyCall(cfg, w, o, call).ops[o], id) ==> CallReserves(call, id)
    ensures Frees(ApplyCall(cfg, w, o, call).ops[o], id) ==> CallFrees(call, id)
  {
    hide ApplyCall, Lookup;
    CallBegins(cfg, w, o, call);
  }

  lemma About(cfg: Config, w: World, a: Act, x: OpId, id: Identity)
    requires Inv(cfg, w) && Linked(w) && Enabled(cfg, w, a) && x in Apply(cfg, w, a).ops
    ensures
      var next := Apply(cfg, w, a).ops[x];
      if x in w.ops then
        && (Reserves(next, id) ==> Reserves(w.ops[x], id))
        && (Frees(next, id) ==> Frees(w.ops[x], id) || Reserves(w.ops[x], id))
      else
        && a.Begin? && a.o == x
        && (Reserves(next, id) ==> CallReserves(a.call, id)) && (Frees(next, id) ==> CallFrees(a.call, id))
  {
    hide Apply, OpsOk, Apart, PendingOk, TicketsOk, LeasesOk, ValidOk, CreditsOk, LogOk, NothingForgotten, BackOk, Next,
      Replies, Reserves, Frees;
    StepFollows(cfg, w, a, x);
    if x !in w.ops {
      BeginIs(cfg, w, x, a.call);
      CallAbout(cfg, w, x, a.call, id);
    } else if Moved(cfg, w, a, x) {
      if a.step.Go? {
        NextAbout(cfg, w, w.ops[x], Apply(cfg, w, a).c, Apply(cfg, w, a).ops[x], id);
      } else {
        ReplyAbout(w.ops[x], Apply(cfg, w, a).ops[x], id);
      }
    }
  }

  lemma OneStill(cfg: Config, w: World, a: Act, id: Identity)
    requires Inv(cfg, w) && Linked(w) && Enabled(cfg, w, a) && OneAtATime(w, id)
    requires a.Begin? ==> OrderlyCall(w, a.call, id)
    ensures OneAtATime(Apply(cfg, w, a), id)
  {
    hide Apply, OpsOk, Apart, PendingOk, TicketsOk, LeasesOk, ValidOk, CreditsOk, LogOk, NothingForgotten, Reserves, Frees,
      Enabled, Linked;
    var v := Apply(cfg, w, a);
    forall o1, o2 | o1 in v.ops && o2 in v.ops && o1 != o2
      ensures !(Reserves(v.ops[o1], id) && (Reserves(v.ops[o2], id) || Frees(v.ops[o2], id)))
    {
      About(cfg, w, a, o1, id);
      About(cfg, w, a, o2, id);
      OthersSame(cfg, w, a, o1);
      OthersSame(cfg, w, a, o2);
    }
  }

  // Only the operation whose turn it is changes.
  lemma OthersSame(cfg: Config, w: World, a: Act, x: OpId)
    requires cfg.Valid() && Enabled(cfg, w, a) && x in Apply(cfg, w, a).ops
    ensures ((a.Begin? || a.Advance?) && a.o == x) || (x in w.ops && Apply(cfg, w, a).ops[x] == w.ops[x])
  {
    hide Apply, Enabled, Moved;
    StepFollows(cfg, w, a, x);
    MovedIs(cfg, w, a, x);
  }

  lemma MovedIs(cfg: Config, w: World, a: Act, x: OpId)
    ensures Moved(cfg, w, a, x) ==> a.Advance? && a.o == x && x in w.ops
  {
  }

  // A step of an operation that has nothing to do with the identity leaves its entry alone.
  lemma Untouched(cfg: Config, w: World, a: Act, id: Identity)
    requires Inv(cfg, w) && Enabled(cfg, w, a) && PairedAt(w.c, id)
    requires a.Advance? ==> !Reserves(w.ops[a.o], id) && !Frees(w.ops[a.o], id)
    ensures
      var d := Apply(cfg, w, a).c;
      && (id in d.identities <==> id in w.c.identities)
      && (id in d.identities ==> d.identities[id] == w.c.identities[id])
      && (id in d.identities && d.identities[id] in d.retiring ==> d.identities[id] in w.c.retiring)
  {
    hide Apply, Enabled, Commit, Drop, OpsOk, Apart, PendingOk, LeasesOk, ValidOk, CreditsOk, LogOk, NothingForgotten;
    var d := Apply(cfg, w, a).c;
    TicketsStep(cfg, w, a);
    if Commits(cfg, w, a) {
      CommitElsewhere(w.c, Newest(cfg, w, a), w.ops[a.o].started + cfg.ttl - cfg.margin, id);
    } else if DropsTicket(w, a) {
      var t := w.ops[a.o].goal.ticket;
      LetGoIssued(cfg, w, a.o);
      DropElsewhere(w.c, t, id);
    }
    if id in d.identities && d.identities[id] in d.retiring && d.identities[id] !in w.c.retiring {
      RetiringStep(cfg, w, a, d.identities[id]);
      RetiringIssued(cfg, w, a.o);
    }
  }

  lemma CommitElsewhere(c: Coord, t: Ticket, until: real, id: Identity)
    requires t.Id() != id
    ensures
      var d := Commit(c, t, until);
      && (id in d.identities <==> id in c.identities) && (id in d.identities ==> d.identities[id] == c.identities[id])
  {
  }

  lemma DropElsewhere(c: Coord, t: Ticket, id: Identity)
    requires t.Id() != id && (t.token in c.tickets ==> c.tickets[t.token] == t)
    ensures
      var d := Drop(c, t.token);
      && (id in d.identities <==> id in c.identities) && (id in d.identities ==> d.identities[id] == c.identities[id])
  {
    hide Drained, MaxOf;
  }

  lemma LetGoIssued(cfg: Config, w: World, o: OpId)
    requires Inv(cfg, w) && o in w.ops && GoalOf(w.ops[o]).Some? && GoalOf(w.ops[o]).value.LetGo?
    ensures
      var t := GoalOf(w.ops[o]).value.ticket;
      t in w.issued && (t.token in w.c.tickets ==> w.c.tickets[t.token] == t)
  {
    hide Apart, PendingOk, LeasesOk, ValidOk, CreditsOk, LogOk, NothingForgotten;
    assert OpOk(cfg, w, w.ops[o]);
  }

  lemma RetiringIssued(cfg: Config, w: World, o: OpId)
    requires Inv(cfg, w) && o in w.ops && w.ops[o].Retiring?
    ensures
      var t := w.ops[o].ticket;
      t in w.issued && (t.token in w.c.tickets ==> w.c.tickets[t.token] == t)
  {
    hide Apart, PendingOk, LeasesOk, ValidOk, CreditsOk, LogOk, NothingForgotten;
    assert OpOk(cfg, w, w.ops[o]);
  }

  // A step that neither commits, drops nor retires leaves all entries alone.
  lemma Steady(cfg: Config, w: World, a: Act)
    requires cfg.Valid() && Enabled(cfg, w, a)
    requires a.Advance? ==> !w.ops[a.o].Reserving? && !w.ops[a.o].Retiring? && !DropsTicket(w, a)
    ensures
      var d := Apply(cfg, w, a).c;
      d.identities == w.c.identities && d.tickets == w.c.tickets && d.retiring <= w.c.retiring
  {
    hide Apply, Enabled;
    TicketsStep(cfg, w, a);
    forall t | t in Apply(cfg, w, a).c.retiring ensures t in w.c.retiring {
      if t !in w.c.retiring {
        RetiringStep(cfg, w, a, t);
      }
    }
  }

  // A veto or a shutdown that keeps a reservation out stays while the ticket in the way is out.
  lemma KeptOut(cfg: Config, w: World, a: Act, id: Identity)
    requires cfg.Valid() && Enabled(cfg, w, a) && PairedAt(Apply(cfg, w, a).c, id)
    requires w.c.closed || id.pair in w.c.invalid
    ensures
      var d := Apply(cfg, w, a).c;
      id !in d.identities || d.closed || id.pair in d.invalid
  {
    ForwardStep(cfg, w, a);
    hide Apply, Enabled;
  }

  lemma NotAbout(c: Coord, op: Op, id: Identity)
    requires !Reserves(op, id)
    ensures Sure(c, op, id)
  {
  }

  // Books that agree on the identity, and keep out whom they kept out.
  ghost predicate Agree(c: Coord, d: Coord, id: Identity) {
    && (id in d.identities <==> id in c.identities)
    && (id in d.identities ==> d.identities[id] == c.identities[id])
    && (id in d.identities && d.identities[id] in d.retiring ==> d.identities[id] in c.retiring)
    && (c.closed || id.pair in c.invalid ==> id !in d.identities || d.closed || id.pair in d.invalid)
  }

  lemma SureStill(c: Coord, d: Coord, op: Op, id: Identity)
    requires Sure(c, op, id) && Agree(c, d, id)
    ensures Sure(d, op, id)
  {
  }

  lemma SureReply(c: Coord, op: Op, next: Op, id: Identity)
    requires Sure(c, op, id) && Replies(op, next)
    ensures Sure(c, next, id)
  {
    ReplyAbout(op, next, id);
  }

  // The operation's own section.
  lemma SureNext(cfg: Config, w: World, op: Op, d: Coord, next: Op, id: Identity)
    requires Sure(w.c, op, id) && Next(cfg, w, op, d, next) && Agree(w.c, d, id)
    ensures Sure(d, next, id)
  {
    hide CommitOk, RenewOk, RaiseOk, Rollbacks, Releases, Invalidations, Charge;
  }

  // A new reservation is sure of what it looked up.
  lemma SureCall(cfg: Config, w: World, o: OpId, call: Call, id: Identity)
    requires Inv(cfg, w) && Linked(w) && PairedAt(w.c, id) && o !in w.ops
    ensures o in ApplyCall(cfg, w, o, call).ops ==> Sure(w.c, ApplyCall(cfg, w, o, call).ops[o], id)
  {
    hide Inv, Linked, ApplyCall, Lookup;
    CallBegins(cfg, w, o, call);
    if call.Reserve? {
      FoundIs(cfg, w, call.id);
      AbsentIs(cfg, w, call.id);
    }
  }

  lemma AbsentIs(cfg: Config, w: World, id: Identity)
    ensures PairedAt(w.c, id) && Lookup(w.c, id).Absent? ==> id !in w.c.identities
  {
  }

  lemma AgreeStep(cfg: Config, w: World, a: Act, id: Identity)
    requires Inv(cfg, w) && Enabled(cfg, w, a) && PairedAt(w.c, id) && PairedAt(Apply(cfg, w, a).c, id)
    requires
      || (a.Advance? ==> !Reserves(w.ops[a.o], id) && !Frees(w.ops[a.o], id))
      || (a.Advance? ==> !w.ops[a.o].Reserving? && !w.ops[a.o].Retiring? && !DropsTicket(w, a))
    ensures Agree(w.c, Apply(cfg, w, a).c, id)
  {
    hide Apply, Inv, PairedAt, Reserves, Frees;
    if a.Advance? ==> !Reserves(w.ops[a.o], id) && !Frees(w.ops[a.o], id) {
      Untouched(cfg, w, a, id);
    } else {
      assert cfg.Valid() by { InvValid(cfg, w); }
      Steady(cfg, w, a);
    }
    InvValid(cfg, w);
    if w.c.closed || id.pair in w.c.invalid {
      KeptOut(cfg, w, a, id);
    }
  }

  lemma InvValid(cfg: Config, w: World)
    requires Inv(cfg, w)
    ensures cfg.Valid()
  {
  }

  lemma SureStep(cfg: Config, w: World, a: Act, x: OpId, id: Identity)
    requires Inv(cfg, w) && Linked(w) && Enabled(cfg, w, a) && OrderOk(w, id) && PairedAt(Apply(cfg, w, a).c, id)
    requires x in Apply(cfg, w, a).ops
    ensures Sure(Apply(cfg, w, a).c, Apply(cfg, w, a).ops[x], id)
  {
    hide Apply, Enabled, Inv, PairedAt, Reserves, Frees, Sure, Linked, Next, Replies, Agree;
    InvValid(cfg, w);
    var v := Apply(cfg, w, a);
    if !Reserves(v.ops[x], id) {
      NotAbout(v.c, v.ops[x], id);
    } else {
      StepFollows(cfg, w, a, x);
      About(cfg, w, a, x, id);
      if x !in w.ops {
        AgreeStep(cfg, w, a, id);
        BeginIs2(cfg, w, a);
        SureCall(cfg, w, x, a.call, id);
        SureStill(w.c, v.c, v.ops[x], id);
      } else if Moved(cfg, w, a, x) {
        SureMoved(cfg, w, a, x, id);
      } else {
        OwnTurn(cfg, w, a, x, id);
        AgreeStep(cfg, w, a, id);
        SureStill(w.c, v.c, v.ops[x], id);
      }
    }
  }

  lemma BeginIs2(cfg: Config, w: World, a: Act)
    requires cfg.Valid() && Enabled(cfg, w, a) && a.Begin?
    ensures Apply(cfg, w, a) == ApplyCall(cfg, w, a.o, a.call)
  {
  }

  // An unchanged reservation of the identity was not the one to move, unless it moved on the spot.
  lemma OwnTurn(cfg: Config, w: World, a: Act, x: OpId, id: Identity)
    requires cfg.Valid() && Enabled(cfg, w, a) && x in w.ops && x in Apply(cfg, w, a).ops && !Moved(cfg, w, a, x)
    requires OneAtATime(w, id) && Reserves(w.ops[x], id)
    ensures a.Advance? ==> !Reserves(w.ops[a.o], id) && !Frees(w.ops[a.o], id)
  {
    hide ApplyEvent, ApplyCall, ApplyStep, ApplyGo, Reserves, Frees, Replies, Next;
    if a.Advance? && a.o == x {
      if a.step.Go? {
        StepGo(cfg, w, x, w.ops[x], a.step.token);
        GoNext(cfg, w, x, w.ops[x], a.step.token);
      } else {
        ReplyFollows(cfg, w, x, w.ops[x], a.step);
      }
    }
  }

  lemma SureMoved(cfg: Config, w: World, a: Act, x: OpId, id: Identity)
    requires Inv(cfg, w) && Linked(w) && Enabled(cfg, w, a) && OrderOk(w, id) && PairedAt(Apply(cfg, w, a).c, id)
    requires x in w.ops && x in Apply(cfg, w, a).ops && Moved(cfg, w, a, x) && Reserves(Apply(cfg, w, a).ops[x], id)
    ensures Sure(Apply(cfg, w, a).c, Apply(cfg, w, a).ops[x], id)
  {
    hide Apply, Enabled, Inv, PairedAt, Frees, Sure, Linked, Next, Replies, Agree;
    InvValid(cfg, w);
    var v := Apply(cfg, w, a);
    if a.step.Go? {
      NextQuiet(cfg, w, a, x, id);
      if w.ops[x].Reserving? {
        assert Sure(v.c, v.ops[x], id) by { Given(v.c, v.ops[x], id); }
      } else {
        AgreeStep(cfg, w, a, id);
        SureNext(cfg, w, w.ops[x], v.c, v.ops[x], id);
      }
    } else {
      SameAfter(cfg, w, a);
      SureReply(w.c, w.ops[x], v.ops[x], id);
    }
  }

  lemma Given(c: Coord, op: Op, id: Identity)
    requires GoalOf(op).Some? && !GoalOf(op).value.Renewed?
    ensures Sure(c, op, id)
  {
  }

  lemma SameAfter(cfg: Config, w: World, a: Act)
    requires cfg.Valid() && Enabled(cfg, w, a) && a.Advance? && !a.step.Go?
    ensures Apply(cfg, w, a).c == w.c
  {
    hide ApplyStep;
    StepAnswers(cfg, w, a.o, w.ops[a.o], a.step);
  }

  // A reservation that goes on was neither releasing nor about to end.
  lemma NextQuiet(cfg: Config, w: World, a: Act, x: OpId, id: Identity)
    requires Moved(cfg, w, a, x) && a.step.Go? && Reserves(Apply(cfg, w, a).ops[x], id)
    ensures !w.ops[x].Retiring? && !DropsTicket(w, a)
    ensures w.ops[x].Reserving? ==> GoalOf(Apply(cfg, w, a).ops[x]) == Some(GiveUp(w.ops[x].id))
  {
    hide Apply, Enabled, RenewOk, RaiseOk, Rollbacks, Releases, Invalidations, CommitOk, RecheckOk;
  }

  lemma OrderStep(cfg: Config, w: World, a: Act, id: Identity)
    requires Inv(cfg, w) && Linked(w) && Enabled(cfg, w, a) && OrderOk(w, id)
    requires a.Begin? ==> OrderlyCall(w, a.call, id)
    ensures OrderOk(Apply(cfg, w, a), id)
  {
    hide Apply, Enabled, Inv, PairedAt, Reserves, Frees, Linked, OneAtATime, OrderlyCall;
    InvValid(cfg, w);
    var v := Apply(cfg, w, a);
    OneStill(cfg, w, a, id);
    PairedExactly(cfg, w, a, id);
    assert !CommitsOver(cfg, w, a, id);
    hide Sure, Commits;
    forall x | x in v.ops ensures Sure(v.c, v.ops[x], id) {
      SureStep(cfg, w, a, x, id);
    }
  }

  lemma InitOrder(id: Identity)
    ensures OrderOk(Init(), id) && Linked(Init())
  {
  }

  lemma {:induction false} OrderAlong(cfg: Config, ws: seq<World>, acts: seq<Act>, i: nat, id: Identity)
    requires cfg.Valid() && Run(cfg, ws, acts) && ws[0] == Init() && i <= |acts| && Orderly(ws, acts, id)
    ensures Inv(cfg, ws[i]) && Linked(ws[i]) && OrderOk(ws[i], id)
  {
    hide Apply, Enabled, Inv, Linked, OrderOk, OrderlyCall;
    InitInv(cfg);
    InitOrder(id);
    InvAlong(cfg, ws, acts, i);
    if i > 0 {
      OrderAlong(cfg, ws, acts, i - 1, id);
      StepOf(cfg, ws, acts, i - 1);
      assert acts[i - 1].Begin? ==> OrderlyCall(ws[i - 1], acts[i - 1].call, id);
      LinkedStep(cfg, ws[i - 1], acts[i - 1]);
      OrderStep(cfg, ws[i - 1], acts[i - 1], id);
    }
  }

  /** There is at most one ticket for an identity, and the index knows it, in every run in which no
      reservation of that identity overlaps another one or a release or completed store of it;
      all other operations may overlap. */
  lemma OneTicketPerIdentity(cfg: Config, ws: seq<World>, acts: seq<Act>, i: nat, id: Identity)
    requires cfg.Valid() && Run(cfg, ws, acts) && ws[0] == Init() && Orderly(ws, acts, id) && i <= |acts|
    ensures PairedAt(ws[i].c, id)
    ensures forall t1, t2 | t1 in ws[i].c.tickets && t2 in ws[i].c.tickets ::
      ws[i].c.tickets[t1].Id() == id == ws[i].c.tickets[t2].Id() ==> t1 == t2
  {
    OrderAlong(cfg, ws, acts, i, id);
  }

  /** So tickets and identities correspond one to one if no two operations overlap at all. */
  lemma SerialPaired(cfg: Config, ws: seq<World>, acts: seq<Act>, i: nat)
    requires cfg.Valid() && Run(cfg, ws, acts) && ws[0] == Init() && i <= |acts|
    requires forall n :: 0 <= n < |acts| && acts[n].Begin? ==> ws[n].ops == map[]
    ensures Paired(ws[i].c)
  {
    hide Inv, Linked, Sure, OneAtATime;
    forall id ensures PairedAt(ws[i].c, id) {
      OrderAlong(cfg, ws, acts, i, id);
    }
    EachPaired(ws[i].c);
  }

  lemma EachPaired(c: Coord)
    requires forall id :: PairedAt(c, id)
    ensures Paired(c)
  {
    forall t | t in c.tickets ensures c.tickets[t].Id() in c.identities && c.identities[c.tickets[t].Id()] == t {
      assert PairedAt(c, c.tickets[t].Id());
    }
    forall id | id in c.identities ensures c.identities[id] in c.tickets && c.tickets[c.identities[id]].Id() == id {
      assert PairedAt(c, id);
    }
  }
}
