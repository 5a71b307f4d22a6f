/** Runs of the remote coordinator in which operations overlap, and what is lost by it. */
module RemoteRaces {
  import opened Basics
  import opened Coordination
  import opened RemoteProtocol
  import opened RemoteTheorems
  import opened RemoteCleanup
  import opened RemoteExposure
  import opened RemoteLedger
  import opened RemoteWalks

  // One rank, one group of one-byte objects, and a log of this size.
  function Small(cap: nat): Config { Config(1, [[1]], 8, 8, 100.0, 10.0, cap, 32) }

  function Object(k: Byte): Pair { Pair(seq(64, i => '0'), [k, 0, 0, 0, 0]) }

  function Who(writing: bool): Identity { Identity(Object(0), [], writing) }

  lemma SmallValid(cap: nat)
    requires 0 < cap
    ensures Small(cap).Valid()
  {
  }

  lemma ObjectKnown(cap: nat, k: Byte, writing: bool)
    ensures
      var id := Identity(Object(k), [], writing);
      && Known(Small(cap), id) && Sizes(Small(cap), id) == [1] && Charge(Small(cap), id) == 1
      && InvalidateWellFormed(Object(k))
  {
    assert MaxOf([1][1..]) == 0 by { assert [1][1..] == []; }
    var z: seq<Byte> := [0, 0, 0, 0];
    assert z[..3] == [0, 0, 0] && [0, 0, 0][..2] == [0, 0] && [0, 0][..1] == [0] && [0][..0] == [];
    assert BigEndian([0, 0]) == 0 && BigEndian(z) == 0;
    assert Object(k).key[1..] == z;
  }

  // ---- the state of affairs between operations ---------------------------------------------------

  // A run from the beginning leads here, with these operations in progress.
  ghost predicate Stands(cap: nat, w: World, c: Coord, ops: map<OpId, Op>) {
    && 0 < cap && Leads(Small(cap), {}, Init(), w) && w.c == c && w.ops == ops && w.now == 0.0
  }

  // The books while this ticket is out and nothing else is.
  function Holding(t: Ticket): Coord {
    Coord(map[t.token := t], map[t.Id() := t.token], map[t.token := 90.0], {}, {}, {}, {}, 1, [], false, false)
  }

  lemma Stepped(cap: nat, w: World, o: OpId, v: World)
    requires 0 < cap && Leads(Small(cap), {}, Init(), w) && o in w.ops && StepEnabled(Small(cap), w, w.ops[o], Go(0))
    requires v == ApplyGo(Small(cap), w, o, w.ops[o], 0)
    ensures Leads(Small(cap), {}, Init(), v)
  {
    SmallValid(cap);
    Take(Small(cap), {}, Init(), w, o, Go(0), v);
  }

  lemma Start(cap: nat) returns (w: World)
    requires 0 < cap
    ensures Stands(cap, w, Empty(), map[]) && w.used == {} && w.issued == {} && w.granted == {} && w.late == {}
  {
    SmallValid(cap);
    w := Init();
    LeadsHere(Small(cap), {}, w);
  }

  // An operation ends in a new ticket that is the only one out.
  lemma Granting(cap: nat, w: World, o: OpId, token: Token, lease: Lease, writing: bool) returns (v: World, t: Ticket)
    requires 0 < cap && Leads(Small(cap), {}, Init(), w) && o in w.ops && w.ops[o] == Admitting(Who(writing))
    requires AdmitOk(Small(cap), w.c, Who(writing)) && w.now == 0.0
    requires At(0, lease) !in w.granted && forall k :: k in w.issued ==> k.token != token
    ensures Leads(Small(cap), {}, Init(), v) && v.now == 0.0 && v.ops == w.ops - {o} && w.used <= v.used <= w.used + {o}
    ensures v.c == Commit(Admit(Small(cap), w.c, Who(writing)), t, 90.0) && v.issued == w.issued + {t}
    ensures v.granted == w.granted + {At(0, lease)} && v.late == w.late
    ensures t.token == token && t.Id() == Who(writing) && t.leases == [lease] && t.sizes == [1]
    ensures At(0, lease) in v.leases && (writing ==> At(0, lease) in v.writes && v.writes[At(0, lease)] == Object(0))
  {
    SmallValid(cap);
    ObjectKnown(cap, 0, writing);
    hide Leads, Known, Sizes, Charge, AdmitOk, Admit, Commit, Who, Obtained;
    v, t := Obtains(Small(cap), {}, Init(), w, o, Who(writing), token, lease);
    ObtainedSmall(cap, w, v, o, t, lease, writing);
  }

  lemma ObtainedSmall(cap: nat, w: World, v: World, o: OpId, t: Ticket, lease: Lease, writing: bool)
    requires Obtained(Small(cap), w, v, o, Who(writing), t, lease) && w.now == 0.0
    ensures v.now == 0.0 && v.ops == w.ops - {o} && w.used <= v.used <= w.used + {o}
    ensures v.c == Commit(Admit(Small(cap), w.c, Who(writing)), t, 90.0) && v.issued == w.issued + {t}
    ensures v.granted == w.granted + {At(0, lease)} && v.late == w.late
    ensures t.Id() == Who(writing) && t.leases == [lease] && t.sizes == Sizes(Small(cap), Who(writing))
    ensures At(0, lease) in v.leases && (writing ==> At(0, lease) in v.writes && v.writes[At(0, lease)] == Object(0))
  {
    hide Sizes, Known, Charge, AdmitOk, Admit, Commit, Object;
    assert t.leases == [lease];
    assert Owns(t, At(0, lease));
    assert v.granted == w.granted + {At(0, lease)};
  }

  lemma FirstBooks(cap: nat, t: Ticket, writing: bool)
    requires t.Id() == Who(writing)
    ensures AdmitOk(Small(cap), Empty(), Who(writing))
    ensures Commit(Admit(Small(cap), Empty(), Who(writing)), t, 90.0) == Holding(t)
  {
    ObjectKnown(cap, 0, writing);
    hide Known, Charge, Who;
    var c := Commit(Admit(Small(cap), Empty(), Who(writing)), t, 90.0);
    assert c.tickets == map[t.token := t] && c.identities == map[t.Id() := t.token] && c.valid == map[t.token := 90.0];
    assert c.pending == {};
  }

  lemma AsksFor(cap: nat, w: World, o: OpId, writing: bool) returns (v: World)
    requires 0 < cap && Leads(Small(cap), {}, Init(), w) && o !in w.used && o !in w.ops
    requires Lookup(w.c, Who(writing)) == Absent
    ensures Leads(Small(cap), {}, Init(), v) && v == Put(w, o, Admitting(Who(writing)))
  {
    SmallValid(cap);
    ObjectKnown(cap, 0, writing);
    hide Leads, Known, Sizes, Charge, Lookup, Who;
    v := Asks(Small(cap), {}, Init(), w, o, Who(writing));
  }

  // Operation 0 was granted ticket 7.
  lemma OneOut(cap: nat, writing: bool) returns (w: World, t: Ticket)
    requires 0 < cap
    ensures Stands(cap, w, Holding(t), map[]) && w.used <= {0} && w.issued == {t} && w.granted == {At(0, 70)} && w.late == {}
    ensures t.token == 7 && t.Id() == Who(writing) && t.leases == [70] && t.sizes == [1] && t in w.issued
  {
    hide Leads, AdmitOk, Admit, Commit, Who;
    var a := Start(cap);
    var b := AsksFor(cap, a, 0, writing);
    FirstBooks(cap, Ticket(7, Who(writing).pair, [70], [1], Who(writing).owner, writing), writing) by { WhoIs(writing); }
    w, t := Granting(cap, b, 0, 7, 70, writing);
    FirstBooks(cap, t, writing);
    assert w.ops == map[];
  }

  lemma WhoIs(writing: bool)
    ensures Who(writing).writing == writing && Who(writing).pair == Object(0)
  {
  }

  lemma HoldingAdmits(cap: nat, t: Ticket, writing: bool)
    requires t.Id() == Who(writing)
    ensures AdmitOk(Small(cap), Holding(t), Who(writing)) && AdmitOk(Small(cap), Retire(Holding(t), t.token), Who(writing))
  {
    ObjectKnown(cap, 0, writing);
    hide Known, Charge, Who;
  }

  // A cleanup that every rank acknowledges and that finds the log empty.
  lemma CleanupOk(cap: nat, c: Coord, e: Entry, again: seq<bool>)
    requires 0 < cap && c.retry == [] && !c.lost && |again| >= 32
    ensures Cleanup(Small(cap), c, [e], [true], again) == (c, true)
  {
    assert [e][1..] == [] && [true][1..] == [];
    assert Calls(Small(cap), c, [], []) == (c, true);
  }

  // ---- reservations of one identity ---------------------------------------------------------------

  /** The lookup and the admission are separate critical sections: two reservations that both
      look before either is admitted leave two tickets for one identity. */
  lemma TwoTicketsForOneIdentity() returns (w: World)
    ensures Small(4).Valid() && Reachable(Small(4), w)
    ensures 7 in w.c.tickets && 8 in w.c.tickets && w.c.tickets[7].Id() == w.c.tickets[8].Id()
  {
    hide Leads, Reachable, AdmitOk, Admit, Commit, Who;
    var a := Start(4);
    var b := AsksFor(4, a, 0, false);
    var d := AsksFor(4, b, 1, false);
    WhoIs(false);
    FirstBooks(4, Ticket(7, Who(false).pair, [70], [1], Who(false).owner, false), false);
    var e, t := Granting(4, d, 0, 7, 70, false);
    FirstBooks(4, t, false);
    HoldingAdmits(4, t, false);
    var u;
    w, u := Granting(4, e, 1, 8, 80, false);
    SecondBooks(e.c, t, u);
    ReachesFromStart(4, w);
  }

  lemma SecondBooks(c: Coord, t: Ticket, u: Ticket)
    requires t.token in c.tickets && c.tickets[t.token] == t && u.token != t.token && u.Id() == t.Id()
    ensures
      var d := Commit(Admit(Small(4), c, u.Id()), u, 90.0);
      && t.token in d.tickets && u.token in d.tickets && d.tickets[t.token] == t && d.tickets[u.token] == u
  {
    hide Charge, AdmitOk;
  }

  lemma ReachesFromStart(cap: nat, w: World)
    requires 0 < cap && Leads(Small(cap), {}, Init(), w)
    ensures Small(cap).Valid() && Reachable(Small(cap), w)
  {
    SmallValid(cap);
    ReachableInit(Small(cap));
    LeadsReach(Small(cap), {}, Init(), w);
  }

  // A second reservation of the same identity has renewed the ticket it found.
  lemma Revisits(w: World, t: Ticket) returns (v: World)
    requires Stands(4, w, Holding(t), map[]) && w.used <= {0} && t.Id() == Who(false) && t in w.issued && t.token == 7
    ensures Stands(4, v, Holding(t), map[1 := Rechecking(t, Who(false))]) && v.used <= {0, 1}
    ensures v.issued == w.issued && v.granted == w.granted && v.late == w.late
  {
    SmallValid(4);
    ObjectKnown(4, 0, false);
    hide Leads, Known, Sizes, Charge, Who;
    var call := Begin(1, Reserve(Who(false), [1]));
    assert Lookup(Holding(t), Who(false)) == Existing(t);
    var a := Put(w, 1, RenewChecking(t, Some(Who(false))));
    assert Apply(Small(4), w, call) == a;
    LeadsOn(Small(4), {}, Init(), w, call);
    v := ApplyRenewCheck(a, 1, t, Some(Who(false)));
    Stepped(4, a, 1, v);
    assert v.ops == map[1 := Rechecking(t, Who(false))];
  }

  lemma GivesBack(cap: nat, w: World, o: OpId, t: Ticket) returns (v: World)
    requires 0 < cap && Leads(Small(cap), {}, Init(), w) && o !in w.used && o !in w.ops && t in w.issued
    ensures Leads(Small(cap), {}, Init(), v) && v == Put(w, o, Retiring(t, true))
  {
    SmallValid(cap);
    v := Put(w, o, Retiring(t, true));
    assert Apply(Small(cap), w, Begin(o, GiveBack(t))) == v;
    LeadsOn(Small(cap), {}, Init(), w, Begin(o, GiveBack(t)));
  }

  lemma ReleasesOne(t: Ticket)
    requires |t.leases| == 1
    ensures Releases(t.leases, 0) == [Release(At(0, t.leases[0]))]
  {
    assert Releases(t.leases, 1) == [];
  }

  // A release starts while that reservation is about to look again.
  lemma Undercut() returns (v: World, t: Ticket)
    ensures Stands(4, v, Retire(Holding(t), 7),
                map[1 := Admitting(Who(false)), 2 := Calling(LetGo(t, true), [Release(At(0, 70))], true)])
    ensures t.token == 7 && t.Id() == Who(false) && t.leases == [70] && t.sizes == [1]
    ensures v.used <= {0, 1, 2} && v.issued == {t} && v.granted == {At(0, 70)} && v.late == {}
  {
    SmallValid(4);
    var w;
    w, t := OneOut(4, false);
    var a := Revisits(w, t);
    var b := GivesBack(4, a, 2, t);
    hide Leads, Who, Retire, Releases;
    ReleasesOne(t);
    var d := Retires(Small(4), {}, Init(), b, 2, t, true);
    NoSecondLook(t, Who(false));
    v := ApplyRecheck(d, 1, t, Who(false));
    Stepped(4, d, 1, v);
    assert v.ops == map[1 := Admitting(Who(false)), 2 := Calling(LetGo(t, true), [Release(At(0, 70))], true)];
  }

  lemma NoSecondLook(t: Ticket, id: Identity)
    requires t.Id() == id
    ensures !RecheckOk(Retire(Holding(t), t.token), id, t)
  {
  }

  lemma BothOut() returns (w: World, t: Ticket, u: Ticket)
    ensures Leads4(w) && w.ops == map[2 := Calling(LetGo(t, true), [Release(At(0, 70))], true)]
    ensures t.token == 7 && u.token == 8 && t.Id() == u.Id() && w.c.retry == [] && !w.c.lost
    ensures w.c.tickets == map[7 := t, 8 := u] && w.c.identities == map[t.Id() := 8]
    ensures Drop(w.c, 7).tickets == map[8 := u] && Drop(w.c, 7).identities == map[]
  {
    WhoIs(false);
    hide Leads, AdmitOk, Who, Admit, Commit, Retire, Drop;
    var a;
    a, t := Undercut();
    HoldingAdmits(4, t, false);
    w, u := Granting(4, a, 1, 8, 80, false);
    assert w.ops == map[2 := Calling(LetGo(t, true), [Release(At(0, 70))], true)];
    UndercutBooks(t, u);
  }

  ghost predicate Leads4(w: World) { Small(4).Valid() && Leads(Small(4), {}, Init(), w) }

  /** Reservations one at a time do not help against a release that overlaps one: the second reservation
      finds the ticket, loses it to the release before its second look, and mints another one. */
  lemma TicketUnderRelease() returns (w: World, t: Ticket, u: Ticket)
    ensures Small(4).Valid() && Reachable(Small(4), w)
    ensures w.ops == map[2 := Calling(LetGo(t, true), [Release(At(0, 70))], true)]
    ensures t.token == 7 && u.token == 8 && t.Id() == u.Id()
    ensures w.c.tickets == map[7 := t, 8 := u] && w.c.identities == map[t.Id() := 8]
  {
    hide Leads, Reachable, Drop;
    w, t, u := BothOut();
    ReachesFromStart(4, w);
  }

  lemma UndercutBooks(t: Ticket, u: Ticket)
    requires t.token == 7 && u.token == 8 && t.Id() == u.Id() == Who(false) && t.sizes == [1]
    ensures
      var d := Commit(Admit(Small(4), Retire(Holding(t), 7), Who(false)), u, 90.0);
      && d.tickets == map[7 := t, 8 := u] && d.identities == map[t.Id() := 8]
      && d.retry == [] && !d.lost && d.acked == {} && d.invalid == {}
      && Drop(d, 7).tickets == map[8 := u] && Drop(d, 7).identities == map[]
  {
    ObjectKnown(4, 0, false);
    hide Charge, Known, Who, Drained;
    var d := Commit(Admit(Small(4), Retire(Holding(t), 7), Who(false)), u, 90.0);
    assert d.tickets == map[7 := t, 8 := u];
    assert d.tickets - {7} == map[8 := u];
  }

  // The rank acknowledges, the log is empty, and the release ends.
  lemma FinishesRelease(cap: nat, w: World, o: OpId, t: Ticket, e: Entry) returns (v: World)
    requires 0 < cap && Leads(Small(cap), {}, Init(), w) && o in w.ops && w.ops[o] == Calling(LetGo(t, true), [e], true)
    requires w.c.retry == [] && !w.c.lost
    ensures Leads(Small(cap), {}, Init(), v) && v.c == Drop(w.c, t.token) && v.ops == w.ops - {o}
    ensures v.used <= w.used + {o} && v.now == w.now && v.issued == w.issued && v.granted == w.granted && v.late == w.late
  {
    SmallValid(cap);
    hide Leads, Drop, Cleanup;
    var again := seq(32, _ => true);
    CleanupOk(cap, w.c, e, again);
    var a := CleanupRuns(Small(cap), {}, Init(), w, o, [true], again);
    v := End(a.(c := Drop(a.c, t.token)), o);
    Stepped(cap, a, o, v);
    assert v.ops == w.ops - {o};
  }

  /** When that release ends, it takes the identity's entry with it, although the entry belongs to the
      other ticket by then. */
  lemma OrphanedTicket() returns (w: World, u: Ticket)
    ensures Small(4).Valid() && Reachable(Small(4), w) && w.ops == map[]
    ensures w.c.tickets == map[8 := u] && u.Id() !in w.c.identities
  {
    hide Leads, Reachable, Drop;
    var a, t;
    a, t, u := BothOut();
    w := FinishesRelease(4, a, 2, t, Release(At(0, 70)));
    assert w.ops == map[];
    ReachesFromStart(4, w);
  }

  // ---- invalidations of one pair ---------------------------------------------------------------------

  // An invalidation up to the point where its one rank still has to be called.
  lemma Quarantining(cap: nat, w: World, o: OpId, k: Byte) returns (v: World)
    requires 0 < cap && Leads(Small(cap), {}, Init(), w) && o !in w.used && o !in w.ops
    requires RaiseOk(Small(cap), w.c, Object(k))
    ensures Leads(Small(cap), {}, Init(), v) && v.c == w.c.(invalid := w.c.invalid + {Object(k)})
    ensures v.ops == w.ops[o := Calling(Veto(Object(k), None), [Invalidate(0, Object(k))], true)] && v.used == w.used + {o}
    ensures v.now == w.now && v.issued == w.issued && v.granted == w.granted && v.late == w.late
  {
    SmallValid(cap);
    hide Leads, Object, RaiseOk, Invalidations;
    var a := Condemning(cap, w, o, k);
    v := Raises(Small(cap), Init(), a, o, Object(k));
    OneInvalidation(Object(k));
    RaisesIt(Small(cap), w.c, Object(k));
    assert v.ops == w.ops[o := v.ops[o]];
  }

  lemma OneInvalidation(p: Pair)
    ensures Invalidations(1, p, 0) == [Invalidate(0, p)]
  {
    assert Invalidations(1, p, 1) == [];
  }

  lemma RaisesIt(cfg: Config, c: Coord, p: Pair)
    requires RaiseOk(cfg, c, p)
    ensures Raise(cfg, c, p) == c.(invalid := c.invalid + {p})
  {
  }

  lemma Condemning(cap: nat, w: World, o: OpId, k: Byte) returns (v: World)
    requires 0 < cap && Leads(Small(cap), {}, Init(), w) && o !in w.used && o !in w.ops
    ensures Leads(Small(cap), {}, Init(), v) && v == Put(w, o, Vetoing(Object(k), None))
  {
    SmallValid(cap);
    ObjectKnown(cap, k, false);
    hide Leads, Object, Known, Sizes, Charge, InvalidateWellFormed;
    v := Put(w, o, Vetoing(Object(k), None));
    assert Apply(Small(cap), w, Begin(o, Quarantine(Object(k)))) == v;
    LeadsOn(Small(cap), {}, Init(), w, Begin(o, Quarantine(Object(k))));
  }

  // The rank acknowledges, the log is empty, and the invalidation ends.
  lemma Confirming(cap: nat, w: World, o: OpId, p: Pair, e: Entry) returns (v: World)
    requires 0 < cap && Leads(Small(cap), {}, Init(), w) && o in w.ops && w.ops[o] == Calling(Veto(p, None), [e], true)
    requires w.c.retry == [] && !w.c.lost
    ensures Leads(Small(cap), {}, Init(), v) && v.c == Acknowledge(w.c, p) && v.ops == w.ops - {o}
    ensures v.used <= w.used + {o} && v.now == w.now && v.issued == w.issued && v.granted == w.granted && v.late == w.late
  {
    SmallValid(cap);
    hide Leads, Acknowledge, Cleanup;
    var again := seq(32, _ => true);
    CleanupOk(cap, w.c, e, again);
    var a := CleanupRuns(Small(cap), {}, Init(), w, o, [true], again);
    v := End(a.(c := Acknowledge(a.c, p)), o);
    Stepped(cap, a, o, v);
    assert v.ops == w.ops - {o};
  }

  function PendingCall(): Op { Calling(Veto(Object(0), None), [Invalidate(0, Object(0))], true) }

  // Two invalidations of one pair; the second finishes first.
  lemma Overlap() returns (w: World)
    ensures Stands(4, w, Empty(), map[0 := PendingCall()]) && w.used <= {0, 1}
    ensures w.issued == {} && w.granted == {} && w.late == {}
  {
    hide Leads, Object;
    var a := Start(4);
    var b := Quarantining(4, a, 0, 0);
    var d := Quarantining(4, b, 1, 0);
    w := Confirming(4, d, 1, Object(0), Invalidate(0, Object(0)));
    assert w.ops == map[0 := PendingCall()];
    assert w.c == Empty();
  }

  // A new ticket while an invalidation that lost its veto still has its rank to call.
  lemma Exposed(writing: bool) returns (w: World, t: Ticket)
    ensures Stands(4, w, Holding(t), map[0 := PendingCall()]) && w.used <= {0, 1, 2} && w.issued == {t}
    ensures t.token == 7 && t.Id() == Who(writing) && t.leases == [70] && t.sizes == [1]
    ensures At(0, 70) in w.leases && (writing ==> At(0, 70) in w.writes && w.writes[At(0, 70)] == Object(0))
  {
    WhoIs(writing);
    hide Leads, AdmitOk, Admit, Commit, Who, Object;
    var a := Overlap();
    var b := AsksFor(4, a, 2, writing);
    FirstBooks(4, Ticket(7, Who(writing).pair, [70], [1], Who(writing).owner, writing), writing);
    w, t := Granting(4, b, 2, 7, 70, writing);
    FirstBooks(4, t, writing);
    assert w.ops == map[0 := PendingCall()];
  }

  /** Two invalidations of one pair overlap; the first to finish lifts the veto while the other
      still has its rank to call, and a new ticket for the pair is handed out with a deadline
      before that call is made. */
  lemma VetoLiftedUnderInvalidation(writing: bool) returns (w: World, t: Ticket)
    ensures Small(4).Valid() && Reachable(Small(4), w) && w.ops == map[0 := PendingCall()] && t.pair == Object(0)
    ensures Deadline(w.c, t) == Some(90.0) && w.now == 0.0 && w.c.invalid == {} && w.c.acked == {}
  {
    WhoIs(writing);
    hide Leads, Reachable, Who, Object;
    w, t := Exposed(writing);
    ReachesFromStart(4, w);
  }

  /** If the ticket is for writing, that call then revokes its lease: the deadline is live, and the rank
      does not hold the lease. */
  lemma LeaseRevoked() returns (w: World, t: Ticket)
    ensures Small(4).Valid() && Reachable(Small(4), w) && t.writing && Bare(Small(4), w, t)
    ensures w.ops == map[0 := Calling(Veto(t.pair, None), [], true)]
  {
    WhoIs(true);
    SmallValid(4);
    hide Leads, Reachable, Who, Object;
    var a;
    a, t := Exposed(true);
    w := ApplyReply(a, 0, a.ops[0], true, true, false);
    Take(Small(4), {}, Init(), a, 0, Replied(true, true, false), w);
    RevokedThere(a, t, w);
    assert w.ops == map[0 := Calling(Veto(t.pair, None), [], true)];
    ReachesFromStart(4, w);
  }

  lemma RevokedThere(a: World, t: Ticket, w: World)
    requires a.ops == map[0 := PendingCall()] && a.c == Holding(t) && a.now == 0.0 && t.leases == [70]
    requires At(0, 70) in a.leases && At(0, 70) in a.writes && a.writes[At(0, 70)] == t.pair == Object(0)
    requires w == ApplyReply(a, 0, a.ops[0], true, true, false)
    ensures Bare(Small(4), w, t)
    ensures w.ops[0] == Calling(Veto(t.pair, None), [], true)
  {
    hide Object;
    assert At(0, 70) in Victims(a, 0, Object(0));
    assert At(0, t.leases[0]) !in w.leases;
    assert Deadline(w.c, t) == Some(90.0);
    assert a.ops[0].work[1..] == [];
  }

  function Stale(t: Ticket): Coord { Holding(t).(acked := {Object(0)}) }

  /** When the other invalidation finishes too, the pair is recorded as acknowledged although
      it is not vetoed. */
  lemma AcknowledgedWithoutVeto() returns (w: World, t: Ticket)
    ensures Small(4).Valid() && Reachable(Small(4), w)
    ensures w.ops == map[] && w.c == Stale(t) && t.pair == Object(0) && Object(0) !in w.c.invalid
  {
    hide Leads, Reachable;
    w, t := StaleOut();
    ReachesFromStart(4, w);
  }

  lemma StaleOut() returns (w: World, t: Ticket)
    ensures Stands(4, w, Stale(t), map[]) && w.used <= {0, 1, 2} && w.issued == {t}
    ensures t.token == 7 && t.Id() == Who(false) && t.leases == [70] && t.sizes == [1]
  {
    WhoIs(false);
    hide Leads, Who, Object;
    var a;
    a, t := Exposed(false);
    w := Confirming(4, a, 0, Object(0), Invalidate(0, Object(0)));
    assert w.ops == map[];
    assert Holding(t).tickets[7].pair == Object(0);
  }

  // A whole release whose one rank acknowledges it.
  lemma Releasing(cap: nat, w: World, o: OpId, t: Ticket) returns (v: World)
    requires 0 < cap && Leads(Small(cap), {}, Init(), w) && o !in w.used && o !in w.ops && t in w.issued
    requires |t.leases| == 1 && w.c.retry == [] && !w.c.lost
    ensures Leads(Small(cap), {}, Init(), v) && v.c == Drop(Retire(w.c, t.token), t.token) && v.ops == w.ops - {o}
    ensures v.used <= w.used + {o} && v.now == w.now && v.issued == w.issued && v.granted == w.granted && v.late == w.late
  {
    SmallValid(cap);
    hide Leads, Drop, Retire, Releases;
    ReleasesOne(t);
    var a := GivesBack(cap, w, o, t);
    var b := Retires(Small(cap), {}, Init(), a, o, t, true);
    assert b.c.retry == [] && !b.c.lost by { RetireLog(w.c, t.token); }
    v := FinishesRelease(cap, b, o, t, Release(At(0, t.leases[0])));
    assert v.ops == w.ops - {o};
  }

  lemma RetireLog(c: Coord, t: Token)
    ensures Retire(c, t).retry == c.retry && Retire(c, t).lost == c.lost
  {
  }

  lemma DropLast(t: Ticket, acked: set<Pair>, invalid: set<Pair>)
    requires t.pair == Object(0) && t.token == 7 && t.sizes == [1] && acked == {Object(0)} && invalid == {Object(0)}
    ensures Drop(Retire(Holding(t).(acked := acked, invalid := invalid), 7), 7) == Empty()
  {
    hide Object;
    var c := Retire(Holding(t).(acked := acked, invalid := invalid), 7);
    assert MaxOf(t.sizes) == 1 by { assert [1][1..] == []; }
    assert c.tickets - {7} == map[] && c.identities - {t.Id()} == map[] && c.valid == map[];
    assert c.retiring - {7} == {};
  }

  /** Such a record lifts the next veto of the pair at the next drain: here while the invalidation that
      raised it still has its rank to call, and whatever that rank will answer. */
  lemma StaleLift() returns (w: World)
    ensures Small(4).Valid() && Reachable(Small(4), w)
    ensures w.ops == map[3 := PendingCall()] && Object(0) !in w.c.invalid
  {
    WhoIs(false);
    hide Leads, Reachable, Object, Who, Drop, Retire;
    var a, t := StaleOut();
    var b := Quarantining(4, a, 3, 0);
    w := Releasing(4, b, 4, t);
    DropLast(t, {Object(0)}, {Object(0)});
    assert b.c == Holding(t).(acked := {Object(0)}, invalid := {Object(0)});
    assert w.ops == map[3 := PendingCall()];
    ReachesFromStart(4, w);
  }

  // A ticket is out, its pair was invalidated and acknowledged, and a second invalidation has begun.
  lemma SecondVeto() returns (w: World, t: Ticket)
    ensures Stands(4, w, Holding(t).(acked := {Object(0)}, invalid := {Object(0)}), map[2 := PendingCall()])
    ensures w.used <= {0, 1, 2} && w.issued == {t} && w.granted == {At(0, 70)}
    ensures t.token == 7 && t.Id() == Who(false) && t.leases == [70] && t.sizes == [1]
  {
    WhoIs(false);
    hide Leads, Who, Object;
    var a;
    a, t := OneOut(4, false);
    var b := Quarantining(4, a, 1, 0);
    var d := Confirming(4, b, 1, Object(0), Invalidate(0, Object(0)));
    assert Holding(t).tickets[7].pair == Object(0);
    assert d.ops == map[];
    w := Quarantining(4, d, 2, 0);
    assert w.ops == map[2 := PendingCall()];
  }

  // The ticket is released while the second invalidation, the only one in progress, has its rank to call.
  lemma Unveiled() returns (w: World)
    ensures Stands(4, w, Empty(), map[2 := PendingCall()]) && w.used <= {0, 1, 2, 3}
    ensures (forall k :: k in w.issued ==> k.token == 7) && w.granted == {At(0, 70)}
  {
    WhoIs(false);
    hide Leads, Object, Who, Drop, Retire;
    var a, t := SecondVeto();
    w := Releasing(4, a, 3, t);
    DropLast(t, {Object(0)}, {Object(0)});
    assert w.ops == map[2 := PendingCall()];
  }

  /** Invalidations that never overlap each other do not keep the veto up either: an acknowledged one is
      over, its veto still stands because a ticket is out, a second one begins, and the release of
      the ticket lifts the veto while the second has its rank to call. A new ticket can then be
      minted, and the call's acknowledgement is recorded without a veto. */
  lemma VetoLiftedUnderOnlyInvalidation() returns (w: World, u: World, t: Ticket)
    ensures Small(4).Valid() && Reachable(Small(4), w) && Reachable(Small(4), u)
    ensures w.ops == map[2 := PendingCall()] && Object(0) !in w.c.invalid
    ensures u.ops == map[] && t.pair == Object(0) && Deadline(u.c, t) == Some(90.0) && u.now == 0.0
    ensures Object(0) in u.c.acked && Object(0) !in u.c.invalid
  {
    hide Leads, Reachable, Object;
    w := Unveiled();
    ReachesFromStart(4, w);
    u, t := Reminted(w);
    ReachesFromStart(4, u);
    assert u.c == Stale(t);
  }

  // A new ticket for the pair, and then the acknowledgement of the call that was still to make.
  lemma Reminted(w: World) returns (u: World, t: Ticket)
    requires Stands(4, w, Empty(), map[2 := PendingCall()]) && w.used <= {0, 1, 2, 3}
    requires (forall k :: k in w.issued ==> k.token == 7) && w.granted == {At(0, 70)}
    ensures Stands(4, u, Stale(t), map[]) && t.pair == Object(0)
  {
    WhoIs(false);
    hide Leads, AdmitOk, Admit, Commit, Object, Who;
    var b := AsksFor(4, w, 4, false);
    FirstBooks(4, Ticket(8, Who(false).pair, [80], [1], Who(false).owner, false), false);
    var d;
    d, t := Granting(4, b, 4, 8, 80, false);
    FirstBooks(4, t, false);
    assert d.ops == map[2 := PendingCall()];
    u := Confirming(4, d, 2, Object(0), Invalidate(0, Object(0)));
    assert Holding(t).tickets[8].pair == Object(0);
    assert u.ops == map[];
  }

  // ---- a lost receipt --------------------------------------------------------------------------------

  // A release is past its check of the log, and an invalidation of another object has its rank to call.
  lemma PastTheCheck() returns (w: World, t: Ticket)
    ensures Stands(1, w, w.c, map[1 := Settled(LetGo(t, true), true)]) && w.used <= {0, 1}
    ensures t.token == 7 && 7 in w.c.tickets && w.c.invalid == {} && w.c.retry == [] && !w.c.lost
  {
    SmallValid(1);
    hide Leads, Retire, Releases, Cleanup;
    var a;
    a, t := OneOut(1, false);
    ReleasesOne(t);
    var b := GivesBack(1, a, 1, t);
    var d := Retires(Small(1), {}, Init(), b, 1, t, true);
    RetireKeeps(Holding(t), 7);
    var again := seq(32, _ => true);
    CleanupOk(1, d.c, Release(At(0, 70)), again);
    w := CleanupRuns(Small(1), {}, Init(), d, 1, [true], again);
    assert w.ops == map[1 := Settled(LetGo(t, true), true)];
  }

  lemma RetireKeeps(c: Coord, t: Token)
    ensures
      var d := Retire(c, t);
      d.tickets == c.tickets && d.invalid == c.invalid && d.retry == c.retry && d.lost == c.lost
  {
  }

  // An invalidation of another object whose call is not acknowledged.
  lemma Failing(w: World, o: OpId, k: Byte) returns (v: World)
    requires Leads(Small(1), {}, Init(), w) && o !in w.used && o !in w.ops && RaiseOk(Small(1), w.c, Object(k))
    ensures Leads(Small(1), {}, Init(), v) && v.ops.Keys == w.ops.Keys + {o} && v.used <= w.used + {o}
    ensures v.c == Replay(Small(1), w.c.(invalid := w.c.invalid + {Object(k)}), Invalidate(0, Object(k)))
    ensures forall x :: x in w.ops ==> v.ops[x] == w.ops[x]
  {
    SmallValid(1);
    hide Leads, Object, Replay;
    var a := Quarantining(1, w, o, k);
    v := CallsRun(Small(1), {}, Init(), a, o, [false]);
    var e := Invalidate(0, Object(k));
    assert [e][1..] == [] && [false][1..] == [];
    assert Calls(Small(1), a.c, [e], [false]) == (Replay(Small(1), a.c, e), false);
  }

  lemma OneLogged(c: Coord, e: Entry, f: Entry)
    requires c.retry == [] && e != f
    ensures
      var d := Replay(Small(1), c, e);
      && d == c.(retry := [e])
      && forall p :: Replay(Small(1), d.(invalid := p), f) == d.(invalid := p, retry := [f], lost := true, closed := true)
  {
    assert [e][1..] == [];
  }

  /** A release that was past its check when a receipt got lost still reports success and drops its
      ticket. */
  lemma SuccessAfterLoss() returns (w: World, a: Act)
    ensures Small(1).Valid() && Reachable(Small(1), w) && Enabled(Small(1), w, a)
    ensures w.c.lost && w.c.closed && ReportsSuccess(w, a)
    ensures 7 in w.c.tickets && 7 !in Apply(Small(1), w, a).c.tickets
  {
    SmallValid(1);
    hide Leads, Reachable, Drop;
    var t;
    w, t := Overflowing();
    a := Advance(1, Go(0));
    ReachesFromStart(1, w);
    DropsSeven(w.c);
  }

  lemma Overflowing() returns (w: World, t: Ticket)
    ensures Leads(Small(1), {}, Init(), w) && 1 in w.ops && w.ops[1] == Settled(LetGo(t, true), true)
    ensures t.token == 7 && 7 in w.c.tickets && w.c.lost && w.c.closed
  {
    hide Leads, Object, Replay;
    var b;
    b, t := PastTheCheck();
    ObjectsDiffer();
    var d := Failing(b, 2, 1);
    OneLogged(b.c.(invalid := b.c.invalid + {Object(1)}), Invalidate(0, Object(1)), Invalidate(0, Object(2)));
    w := Failing(d, 3, 2);
  }

  lemma ObjectsDiffer()
    ensures Object(1) != Object(2)
  {
    assert Object(1).key[0] != Object(2).key[0];
  }

  lemma DropsSeven(c: Coord)
    ensures 7 !in Drop(c, 7).tickets
  {
    hide MaxOf, Drained;
  }
}
