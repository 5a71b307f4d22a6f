/** What the operations of the in-process coordinator do to its books, whatever the stores answer,
    and what the books keep over any history of operations run one at a time. */
module LocalBooks {
  import opened Basics
  import opened Coordination
  import opened Credits

  predicate InGeometry(cfg: Config, id: Identity) { GroupOf(id.pair.key) < |cfg.sizeByGroup| }

  // What one public operation does to the books; some do several of these.
  datatype Event =
    | Granted(ticket: Ticket, until: real)
    | Extended(token: Token, until: real)
    | Lapsed(token: Token)
    | Released(token: Token, acked: bool, drop: bool)
    | Quarantined(pair: Pair, acked: bool)

  function Step(cfg: Config, c: Coord, e: Event): Coord {
    match e
    case Granted(t, until) => Commit(c.(bytes := c.bytes + TicketCharge(t)), t, until)
    case Extended(t, until) => c.(valid := c.valid[t := until])
    case Lapsed(t) => c.(valid := c.valid - {t})
    case Released(t, acked, drop) =>
      var r := Retire(c, t);
      if acked && drop then Drop(r, t) else r
    case Quarantined(p, acked) =>
      var r := Raise(cfg, c, p);
      if acked then Acknowledge(r, p) else r
  }

  predicate Admissible(cfg: Config, c: Coord, id: Identity) {
    && Lookup(c, id) == Absent && InGeometry(cfg, id)
    && |c.tickets| < cfg.maxKeys
    && c.bytes + MaxOf(cfg.sizeByGroup[GroupOf(id.pair.key)]) <= cfg.maxBytes
  }

  predicate Allowed(cfg: Config, c: Coord, e: Event) {
    match e
    case Granted(t, until) =>
      && Admissible(cfg, c, t.Id()) && t.token !in c.tickets
      && |t.leases| == cfg.ranks && t.sizes == cfg.sizeByGroup[GroupOf(t.pair.key)]
    case Extended(t, _) => t in c.tickets && RenewOk(c, c.tickets[t])
    case Lapsed(t) => t in c.tickets && RenewOk(c, c.tickets[t])
    case Released(t, _, _) => true
    case Quarantined(p, acked) => acked ==> RaiseOk(cfg, c, p)
  }

  ghost predicate BooksOk(cfg: Config, c: Coord) {
    Paired(c) && TicketsOk(cfg, c) && MarksOk(cfg, c) && CreditsOk(cfg, c)
  }

  predicate TicketsOk(cfg: Config, c: Coord) {
    forall t :: t in c.tickets ==>
      && c.tickets[t].token == t && |c.tickets[t].leases| == cfg.ranks && InGeometry(cfg, c.tickets[t].Id())
      && c.tickets[t].sizes == cfg.sizeByGroup[GroupOf(c.tickets[t].pair.key)]
  }

  predicate MarksOk(cfg: Config, c: Coord) {
    && c.retiring <= c.tickets.Keys && c.valid.Keys <= c.tickets.Keys - c.retiring
    && c.acked <= c.invalid && |c.invalid| <= cfg.maxKeys && c.pending == {}
  }

  ghost predicate CreditsOk(cfg: Config, c: Coord) {
    c.bytes == TicketCharges(c.tickets) && |c.tickets| <= cfg.maxKeys && c.bytes <= cfg.maxBytes
  }

  // The vetoes and marks change; tickets and credits do not.
  lemma SameTickets(cfg: Config, c: Coord, d: Coord)
    requires BooksOk(cfg, c) && MarksOk(cfg, d)
    requires d.tickets == c.tickets && d.identities == c.identities && d.bytes == c.bytes
    ensures BooksOk(cfg, d)
  {
    hide TicketCharges, InGeometry;
  }

  lemma ClearKeeps(cfg: Config, c: Coord, pair: Pair)
    requires BooksOk(cfg, c)
    ensures BooksOk(cfg, ClearVeto(c, pair))
  {
    assert MarksOk(cfg, ClearVeto(c, pair)) by { hide Drained, Paired, TicketsOk, CreditsOk; }
    hide Drained, Paired, TicketsOk, CreditsOk, MarksOk;
    SameTickets(cfg, c, ClearVeto(c, pair));
  }

  lemma PairedLess(c: Coord, d: Coord, t: Token)
    requires Paired(c) && t in c.tickets
    requires d.tickets == c.tickets - {t} && d.identities == c.identities - {c.tickets[t].Id()}
    ensures Paired(d)
  {
  }

  lemma PairedMore(c: Coord, d: Coord, t: Ticket)
    requires Paired(c) && t.token !in c.tickets && t.Id() !in c.identities
    requires d.tickets == c.tickets[t.token := t] && d.identities == c.identities[t.Id() := t.token]
    ensures Paired(d)
  {
  }

  lemma CreditsLess(cfg: Config, c: Coord, d: Coord, t: Token)
    requires CreditsOk(cfg, c) && t in c.tickets && c.tickets[t].token == t
    requires d.tickets == c.tickets - {t} && d.bytes == c.bytes - MaxOf(c.tickets[t].sizes)
    ensures CreditsOk(cfg, d)
  {
    TicketRemoved(c.tickets, t);
    hide TicketCharges;
    assert d.tickets.Keys == c.tickets.Keys - {t};
    assert |d.tickets.Keys| < |c.tickets.Keys|;
  }

  lemma CreditsMore(cfg: Config, c: Coord, d: Coord, t: Ticket)
    requires CreditsOk(cfg, c) && t.token !in c.tickets && |c.tickets| < cfg.maxKeys
    requires d.tickets == c.tickets[t.token := t] && d.bytes == c.bytes + TicketCharge(t) <= cfg.maxBytes
    ensures CreditsOk(cfg, d)
  {
    TicketAdded(c.tickets, t);
    hide TicketCharges;
  }

  // A retired ticket goes, with its credits.
  lemma DropKeeps(cfg: Config, c: Coord, t: Token)
    requires BooksOk(cfg, c) && (t in c.tickets ==> t in c.retiring)
    ensures BooksOk(cfg, Drop(c, t))
  {
    hide CreditsOk, MaxOf, Paired, Drained, ClearVeto, InGeometry;
    if t in c.tickets {
      var k := c.tickets[t];
      var d := c.(tickets := c.tickets - {t}, identities := c.identities - {k.Id()},
                  retiring := c.retiring - {t}, bytes := c.bytes - MaxOf(k.sizes));
      CreditsLess(cfg, c, d, t);
      PairedLess(c, d, t);
      assert TicketsOk(cfg, d);
      hide TicketsOk;
      assert d.tickets.Keys == c.tickets.Keys - {t};
      assert MarksOk(cfg, d);
      ClearKeeps(cfg, d, k.pair);
    }
  }

  lemma AbsentNew(cfg: Config, c: Coord, id: Identity)
    requires BooksOk(cfg, c) && Lookup(c, id) == Absent
    ensures id !in c.identities && c.pending == {}
  {
  }

  lemma MarksMore(cfg: Config, c: Coord, d: Coord, t: Token, until: real)
    requires MarksOk(cfg, c) && t !in c.tickets
    requires d.tickets.Keys == c.tickets.Keys + {t} && d.valid == c.valid[t := until]
    requires d.retiring == c.retiring && d.acked == c.acked && d.invalid == c.invalid && d.pending == {}
    ensures MarksOk(cfg, d)
  {
  }

  lemma TicketsMore(cfg: Config, c: Coord, d: Coord, t: Ticket)
    requires TicketsOk(cfg, c) && t.token !in c.tickets && d.tickets == c.tickets[t.token := t]
    requires |t.leases| == cfg.ranks && InGeometry(cfg, t.Id())
    requires t.sizes == cfg.sizeByGroup[GroupOf(t.pair.key)]
    ensures TicketsOk(cfg, d)
  {
    hide GroupOf;
  }

  lemma GrantKeeps(cfg: Config, c: Coord, t: Ticket, until: real)
    requires BooksOk(cfg, c) && t.Id() !in c.identities && InGeometry(cfg, t.Id()) && c.pending == {}
    requires |c.tickets| < cfg.maxKeys && c.bytes + TicketCharge(t) <= cfg.maxBytes && t.token !in c.tickets
    requires |t.leases| == cfg.ranks && t.sizes == cfg.sizeByGroup[GroupOf(t.pair.key)]
    ensures BooksOk(cfg, Commit(c.(bytes := c.bytes + TicketCharge(t)), t, until))
  {
    hide CreditsOk, TicketCharge, GroupOf, Paired, TicketsOk, MarksOk, InGeometry;
    var d := Commit(c.(bytes := c.bytes + TicketCharge(t)), t, until);
    assert d.tickets.Keys == c.tickets.Keys + {t.token};
    PairedMore(c, d, t);
    CreditsMore(cfg, c, d, t);
    MarksMore(cfg, c, d, t.token, until);
    TicketsMore(cfg, c, d, t);
    assert BooksOk(cfg, d);
  }

  lemma RaiseKeeps(cfg: Config, c: Coord, p: Pair)
    requires BooksOk(cfg, c)
    ensures BooksOk(cfg, Raise(cfg, c, p))
    ensures RaiseOk(cfg, c, p) ==> BooksOk(cfg, Acknowledge(Raise(cfg, c, p), p))
  {
    var r := Raise(cfg, c, p);
    hide Paired, TicketsOk, CreditsOk, ClearVeto;
    SameTickets(cfg, c, r);
    if RaiseOk(cfg, c, p) {
      var a := r.(acked := r.acked + {p});
      SameTickets(cfg, r, a);
      ClearKeeps(cfg, a, p);
    }
  }

  lemma StepKeeps(cfg: Config, c: Coord, e: Event)
    requires BooksOk(cfg, c) && Allowed(cfg, c, e)
    ensures BooksOk(cfg, Step(cfg, c, e))
  {
    hide BooksOk, Lookup, Commit, Retire, Drop, Raise, Acknowledge, GroupOf, MaxOf;
    match e
    case Granted(t, until) =>
      AbsentNew(cfg, c, t.Id());
      GrantKeeps(cfg, c, t, until);
    case Extended(t, until) => WindowKeeps(cfg, c, t, until);
    case Lapsed(t) => WindowKeeps(cfg, c, t, 0.0);
    case Released(t, acked, drop) =>
      RetireKeeps(cfg, c, t);
      DropKeeps(cfg, Retire(c, t), t);
    case Quarantined(p, acked) => RaiseKeeps(cfg, c, p);
  }

  lemma WindowKeeps(cfg: Config, c: Coord, t: Token, until: real)
    requires BooksOk(cfg, c) && t in c.tickets && RenewOk(c, c.tickets[t])
    ensures BooksOk(cfg, c.(valid := c.valid[t := until])) && BooksOk(cfg, c.(valid := c.valid - {t}))
  {
    hide Paired, CreditsOk, InGeometry;
    var d, e := c.(valid := c.valid[t := until]), c.(valid := c.valid - {t});
    assert c.tickets[t].token == t;
    SameTickets(cfg, c, d);
    SameTickets(cfg, c, e);
  }

  lemma RetireKeeps(cfg: Config, c: Coord, t: Token)
    requires BooksOk(cfg, c)
    ensures BooksOk(cfg, Retire(c, t)) && (t in Retire(c, t).tickets ==> t in Retire(c, t).retiring)
  {
    hide Paired, CreditsOk, TicketsOk;
    SameTickets(cfg, c, Retire(c, t));
  }

  function After(cfg: Config, c: Coord, es: seq<Event>): Coord {
    if es == [] then c else Step(cfg, After(cfg, c, es[..|es| - 1]), es[|es| - 1])
  }

  predicate History(cfg: Config, c: Coord, es: seq<Event>) {
    es == [] ||
    (History(cfg, c, es[..|es| - 1]) && Allowed(cfg, After(cfg, c, es[..|es| - 1]), es[|es| - 1]))
  }

  /** Whatever the stores answer, tickets and identities stay in one-to-one correspondence,
      validity covers only tickets that are not being released, the byte count is the exact
      charge and every bound holds. */
  lemma {:induction false} BooksAlong(cfg: Config, c: Coord, es: seq<Event>)
    requires BooksOk(cfg, c) && History(cfg, c, es)
    ensures BooksOk(cfg, After(cfg, c, es))
  {
    if es != [] {
      BooksAlong(cfg, c, es[..|es| - 1]);
      hide BooksOk, Step, Allowed;
      StepKeeps(cfg, After(cfg, c, es[..|es| - 1]), es[|es| - 1]);
    }
  }

  // ---- vetoes -------------------------------------------------------------------

  // The books after the first `i` operations.
  function Books(cfg: Config, es: seq<Event>, i: nat): Coord
    requires i <= |es|
  {
    After(cfg, Empty(), es[..i])
  }

  // Some invalidation of the pair was acknowledged, and the veto has stood ever since.
  ghost predicate AckedSince(cfg: Config, es: seq<Event>, i: nat, p: Pair)
    requires i <= |es|
  {
    exists k :: 0 <= k < i && es[k] == Quarantined(p, true) && StandsFrom(cfg, es, k, i, p)
  }

  ghost predicate StandsFrom(cfg: Config, es: seq<Event>, k: nat, i: nat, p: Pair)
    requires k <= i <= |es|
  {
    forall n :: k < n <= i ==> p in Books(cfg, es, n).invalid
  }

  lemma LiftDrop(c: Coord, t: Token, p: Pair)
    ensures p in c.invalid && p !in Drop(c, t).invalid ==> Drained(Drop(c, t), p) && p in c.acked
    ensures p in Drop(c, t).acked ==> p in c.acked
  {
    hide MaxOf;
  }

  lemma LiftStep(cfg: Config, c: Coord, e: Event, p: Pair)
    ensures p in c.invalid && p !in Step(cfg, c, e).invalid ==>
      Drained(Step(cfg, c, e), p) && (p in c.acked || e == Quarantined(p, true))
    ensures p in Step(cfg, c, e).acked ==> p in c.acked || e == Quarantined(p, true)
  {
    hide TicketCharge, MaxOf, Drop;
    if e.Released? {
      LiftDrop(Retire(c, e.token), e.token, p);
    }
  }

  lemma BooksNext(cfg: Config, es: seq<Event>, i: nat)
    requires i < |es| && History(cfg, Empty(), es)
    ensures Books(cfg, es, i + 1) == Step(cfg, Books(cfg, es, i), es[i])
    ensures History(cfg, Empty(), es[..i]) && Allowed(cfg, Books(cfg, es, i), es[i])
    decreases |es|
  {
    assert es[..i + 1][..i] == es[..i];
    if i == |es| - 1 {
      assert es[..i + 1] == es;
    } else {
      var rest := es[..|es| - 1];
      BooksNext(cfg, rest, i);
      assert rest[..i] == es[..i] && rest[..i + 1] == es[..i + 1];
    }
  }

  lemma EmptyOk(cfg: Config)
    requires 0 <= cfg.maxKeys && 0 <= cfg.maxBytes
    ensures BooksOk(cfg, Empty())
  {
    assert ChargeMap(Empty().tickets) == map[];
  }

  lemma BooksAt(cfg: Config, es: seq<Event>, i: nat)
    requires i <= |es| && History(cfg, Empty(), es) && 0 <= cfg.maxKeys && 0 <= cfg.maxBytes
    ensures BooksOk(cfg, Books(cfg, es, i))
  {
    hide BooksOk, Step, Allowed;
    EmptyOk(cfg);
    if i < |es| {
      BooksNext(cfg, es, i);
    } else {
      assert es[..i] == es;
    }
    BooksAlong(cfg, Empty(), es[..i]);
  }

  lemma AckedNext(cfg: Config, es: seq<Event>, i: nat, p: Pair)
    requires 0 < i <= |es| && p in Books(cfg, es, i).invalid
    requires es[i - 1] == Quarantined(p, true) || AckedSince(cfg, es, i - 1, p)
    ensures AckedSince(cfg, es, i, p)
  {
    hide Books;
    if es[i - 1] == Quarantined(p, true) {
      assert StandsFrom(cfg, es, i - 1, i, p);
    } else {
      var k :| 0 <= k < i - 1 && es[k] == Quarantined(p, true) && StandsFrom(cfg, es, k, i - 1, p);
      assert StandsFrom(cfg, es, k, i, p);
    }
  }

  lemma {:induction false} AckedAlong(cfg: Config, es: seq<Event>, i: nat, p: Pair)
    requires i <= |es| && History(cfg, Empty(), es) && p in Books(cfg, es, i).acked
    ensures AckedSince(cfg, es, i, p)
  {
    hide Step, BooksOk, AckedSince;
    AckedVetoed(cfg, es, i, p);
    if i > 0 {
      BooksNext(cfg, es, i - 1);
      LiftStep(cfg, Books(cfg, es, i - 1), es[i - 1], p);
      if es[i - 1] != Quarantined(p, true) {
        AckedAlong(cfg, es, i - 1, p);
      }
      AckedNext(cfg, es, i, p);
    }
  }

  lemma AckedVetoed(cfg: Config, es: seq<Event>, i: nat, p: Pair)
    requires i <= |es| && History(cfg, Empty(), es) && p in Books(cfg, es, i).acked
    ensures p in Books(cfg, es, i).invalid && 0 < i
  {
    BooksAt(cfg, es, i);
  }

  /** A veto lifts only when no ticket for the pair is left, and only after an invalidation that
      every store acknowledged while the veto stood. */
  lemma VetoLifts(cfg: Config, es: seq<Event>, i: nat, p: Pair)
    requires i < |es| && History(cfg, Empty(), es)
    requires p in Books(cfg, es, i).invalid && p !in Books(cfg, es, i + 1).invalid
    ensures Drained(Books(cfg, es, i + 1), p)
    ensures es[i] == Quarantined(p, true) || AckedSince(cfg, es, i, p)
  {
    BooksNext(cfg, es, i);
    LiftStep(cfg, Books(cfg, es, i), es[i], p);
    if es[i] != Quarantined(p, true) {
      AckedAlong(cfg, es, i, p);
    }
  }

  /** A refused invalidation does not take back an earlier acknowledgement: when the last ticket
      of the pair goes, the veto lifts exactly if the pair was already recorded as acknowledged. */
  lemma RefusedInvalidation(cfg: Config, c: Coord, t: Token)
    requires BooksOk(cfg, c) && t in c.tickets
    requires forall x :: x in c.tickets && x != t ==> c.tickets[x].pair != c.tickets[t].pair
    ensures
      var p := c.tickets[t].pair;
      var vetoed := Step(cfg, c, Quarantined(p, false));
      var drained := Step(cfg, vetoed, Released(t, true, true));
      p in vetoed.invalid && p !in drained.invalid <==> p in c.acked
  {
    hide TicketCharge, MaxOf, TicketsOk, CreditsOk, Paired;
  }

  lemma Append(cfg: Config, c: Coord, es: seq<Event>, e: Event)
    requires History(cfg, c, es) && Allowed(cfg, After(cfg, c, es), e)
    ensures History(cfg, c, es + [e]) && After(cfg, c, es + [e]) == Step(cfg, After(cfg, c, es), e)
  {
    assert (es + [e])[..|es|] == es;
  }

  // What the veto of a single ticket's pair does, seen from the books.
  lemma OneTicket(cfg: Config, t: Ticket, until: real)
    requires 0 < cfg.maxKeys
    ensures
      var c := Step(cfg, Empty(), Granted(t, until));
      var d := Step(cfg, c, Quarantined(t.pair, true));
      var e := Step(cfg, d, Quarantined(t.pair, false));
      && RaiseOk(cfg, c, t.pair) && t.pair in d.acked && e == d && t.pair in d.invalid
      && t.token in d.tickets && d.tickets.Keys == {t.token} && d.tickets[t.token].pair == t.pair
      && t.pair !in Step(cfg, e, Released(t.token, true, true)).invalid
  {
    hide TicketCharge, MaxOf;
    var c := Step(cfg, Empty(), Granted(t, until));
    assert c.tickets == map[t.token := t];
    var d := Step(cfg, c, Quarantined(t.pair, true));
    assert c.tickets[t.token].pair == t.pair;
    assert !Drained(Raise(cfg, c, t.pair).(acked := {t.pair}), t.pair);
    assert d.invalid == {t.pair} && d.tickets == c.tickets;
  }

  /** So a veto may lift although the last invalidation of the pair was refused. */
  lemma LiftedAfterRefusal(cfg: Config, t: Ticket, until: real)
    requires Allowed(cfg, Empty(), Granted(t, until)) && 0 < cfg.maxKeys
    ensures
      var es := [Granted(t, until), Quarantined(t.pair, true), Quarantined(t.pair, false), Released(t.token, true, true)];
      && History(cfg, Empty(), es)
      && t.pair in Books(cfg, es, 3).invalid && t.pair !in Books(cfg, es, 4).invalid
  {
    hide Step;
    OneTicket(cfg, t, until);
    var e1, e2 := [Granted(t, until)], [Granted(t, until), Quarantined(t.pair, true)];
    var e3 := e2 + [Quarantined(t.pair, false)];
    var es := e3 + [Released(t.token, true, true)];
    Append(cfg, Empty(), [], e1[0]);
    Append(cfg, Empty(), e1, e2[1]);
    assert e1 + [e2[1]] == e2;
    Append(cfg, Empty(), e2, Quarantined(t.pair, false));
    Append(cfg, Empty(), e3, Released(t.token, true, true));
    assert es == [Granted(t, until), Quarantined(t.pair, true), Quarantined(t.pair, false), Released(t.token, true, true)];
    assert es[..3] == e3 && es[..4] == es;
  }
}
