/** How the tickets of a coordinator and the leases its stores hold keep in step. */
module StoreLeases {
  import opened Basics
  import opened Coordination
  import opened LocalStores
  import opened LocalBooks

  ghost predicate Owned(c: Coord, at: RankLease) {
    exists t :: t in c.tickets && Owns(c.tickets[t], at)
  }

  // A window may be relied on until its end; the leases behind it last longer still.
  ghost predicate WindowsOk(cfg: Config, c: Coord, s: Store) {
    && (c.valid != map[] ==> 0.0 < cfg.margin)
    && (forall t, at :: t in c.valid && t in c.tickets && c.tickets[t].pair !in c.invalid && Owns(c.tickets[t], at) ==>
          Backed(s, at, c.valid[t] + cfg.margin))
  }

  // Tickets have leases of their own, for their own pair.
  ghost predicate OwnersOk(c: Coord, s: Store) {
    && (forall t, at :: t in c.tickets && Owns(c.tickets[t], at) ==> at in s.granted)
    && (forall t, at :: t in c.tickets && Owns(c.tickets[t], at) && at in s.held ==> s.held[at].pair == c.tickets[t].pair)
    && (forall t1, t2, at :: t1 in c.tickets && t2 in c.tickets && Owns(c.tickets[t1], at) && Owns(c.tickets[t2], at) ==>
          t1 == t2)
  }

  // A lease granted since the coordinator was made, and still held, belongs to a ticket, unless its
  // grant was never seen or a release of it was not acknowledged.
  ghost predicate NoStrays(c: Coord, s: Store, before: set<RankLease>) {
    forall at :: at in s.held && at !in before ==> at in s.unseen || at in s.refused || Owned(c, at)
  }

  ghost predicate LeasesOk(cfg: Config, c: Coord, s: Store, before: set<RankLease>) {
    Sound(s) && before <= s.granted && WindowsOk(cfg, c, s) && OwnersOk(c, s) && NoStrays(c, s, before)
  }

  // The stores move on; the books stay.
  lemma LeasesMove(cfg: Config, c: Coord, s: Store, v: Store, spent: set<RankLease>, before: set<RankLease>)
    requires LeasesOk(cfg, c, s, before) && Moves(s, v, spent)
    requires forall at :: at in v.held && at !in s.held ==> at in v.unseen
    requires forall t, at :: t in c.valid && t in c.tickets && c.tickets[t].pair !in c.invalid && Owns(c.tickets[t], at) ==>
      at !in spent
    ensures LeasesOk(cfg, c, v, before)
  {
    assert WindowsOk(cfg, c, v) by {
      forall t, at | t in c.valid && t in c.tickets && c.tickets[t].pair !in c.invalid && Owns(c.tickets[t], at)
        ensures Backed(v, at, c.valid[t] + cfg.margin)
      {
        BackedOn(s, v, spent, at, c.valid[t] + cfg.margin);
      }
    }
    hide WindowsOk;
    assert OwnersOk(c, v);
  }

  // No new ticket and no new window; a veto goes only from a pair without tickets.
  ghost predicate Less(c: Coord, d: Coord) {
    && (forall t :: t in d.tickets ==> t in c.tickets && d.tickets[t] == c.tickets[t])
    && (forall t :: t in d.valid ==> t in c.valid && d.valid[t] == c.valid[t])
    && (forall t :: t in d.tickets && d.tickets[t].pair !in d.invalid ==> d.tickets[t].pair !in c.invalid)
  }

  lemma LessTwice(c: Coord, d: Coord, e: Coord)
    requires Less(c, d) && Less(d, e)
    ensures Less(c, e)
  {
  }

  lemma LessClear(c: Coord, p: Pair)
    ensures Less(c, ClearVeto(c, p)) && ClearVeto(c, p).tickets == c.tickets
  {
  }

  lemma LessDrop(c: Coord, t: Token)
    ensures Less(c, Drop(c, t)) && Drop(c, t).tickets == c.tickets - {t}
  {
    hide ClearVeto, MaxOf;
    if t in c.tickets {
      var k := c.tickets[t];
      var d := c.(tickets := c.tickets - {t}, identities := c.identities - {k.Id()},
                  retiring := c.retiring - {t}, bytes := c.bytes - MaxOf(k.sizes));
      LessClear(d, k.pair);
      LessTwice(c, d, Drop(c, t));
    } else {
      assert c.tickets - {t} == c.tickets;
    }
  }

  // The books move on without new tickets or windows; the stores stay.
  lemma LeasesLess(cfg: Config, c: Coord, d: Coord, s: Store, before: set<RankLease>)
    requires LeasesOk(cfg, c, s, before)
    requires Less(c, d)
    requires forall t, at :: t in c.tickets && t !in d.tickets && Owns(c.tickets[t], at) ==> at !in s.held
    ensures LeasesOk(cfg, d, s, before)
  {
    assert OwnersOk(d, s) && WindowsOk(cfg, d, s) by { hide NoStrays; }
    hide OwnersOk, WindowsOk;
    forall at | at in s.held && at !in before ensures at in s.unseen || at in s.refused || Owned(d, at) {
      if Owned(c, at) {
        var t :| t in c.tickets && Owns(c.tickets[t], at);
        assert t in d.tickets;
      }
    }
  }

  lemma LessStep(cfg: Config, c: Coord, e: Event)
    requires !e.Granted? && !e.Extended?
    ensures Less(c, Step(cfg, c, e))
    ensures Step(cfg, c, e).tickets == if e.Released? && e.acked && e.drop then c.tickets - {e.token} else c.tickets
  {
    hide ClearVeto, Drop, Less;
    match e
    case Lapsed(t) => assert Less(c, Step(cfg, c, e)) by { LessPlain(c, Step(cfg, c, e)); }
    case Released(t, acked, drop) =>
      LessPlain(c, Retire(c, t));
      LessDrop(Retire(c, t), t);
      LessTwice(c, Retire(c, t), Drop(Retire(c, t), t));
    case Quarantined(p, acked) =>
      var r := Raise(cfg, c, p);
      var a := r.(acked := r.acked + {p});
      LessPlain(c, r);
      LessPlain(c, a);
      LessClear(a, p);
      LessTwice(c, a, ClearVeto(a, p));
  }

  lemma LessPlain(c: Coord, d: Coord)
    requires d.tickets == c.tickets && c.invalid <= d.invalid
    requires forall t :: t in d.valid ==> t in c.valid && d.valid[t] == c.valid[t]
    ensures Less(c, d)
  {
  }

  lemma LeasesExtend(cfg: Config, c: Coord, s: Store, before: set<RankLease>, t: Token, until: real)
    requires LeasesOk(cfg, c, s, before) && t in c.tickets && 0.0 < cfg.margin
    requires forall at :: Owns(c.tickets[t], at) ==> Backed(s, at, until + cfg.margin)
    ensures LeasesOk(cfg, Step(cfg, c, Extended(t, until)), s, before)
  {
    var d := Step(cfg, c, Extended(t, until));
    assert WindowsOk(cfg, d, s);
    hide WindowsOk;
    assert forall at :: Owned(c, at) ==> Owned(d, at);
  }

  // A reservation's leases become a ticket's.
  lemma LeasesGrant(cfg: Config, c: Coord, s: Store, before: set<RankLease>, t: Ticket, until: real)
    requires Sound(s) && before <= s.granted && WindowsOk(cfg, c, s) && OwnersOk(c, s) && 0.0 < cfg.margin
    requires t.token !in c.tickets
    requires forall at :: Owns(t, at) ==> at in s.granted && Backed(s, at, until + cfg.margin) && !Owned(c, at)
    requires forall at :: Owns(t, at) && at in s.held ==> s.held[at].pair == t.pair
    requires forall at :: at in s.held && at !in before ==>
      at in s.unseen || at in s.refused || Owned(c, at) || Owns(t, at)
    ensures LeasesOk(cfg, Step(cfg, c, Granted(t, until)), s, before)
  {
    var d := Step(cfg, c, Granted(t, until));
    assert d.tickets == c.tickets[t.token := t] && d.valid == c.valid[t.token := until] && d.invalid == c.invalid;
    hide Step;
    assert WindowsOk(cfg, d, s) by { hide OwnersOk, NoStrays; }
    hide WindowsOk;
    assert OwnersOk(d, s) by {
      forall x, at | x in c.tickets && Owns(c.tickets[x], at) ensures !Owns(t, at) {}
    }
    hide OwnersOk;
    forall at | at in s.held && at !in before ensures at in s.unseen || at in s.refused || Owned(d, at) {
      if Owned(c, at) {
        var x :| x in c.tickets && Owns(c.tickets[x], at);
        assert d.tickets[x] == c.tickets[x];
      } else if Owns(t, at) {
        assert d.tickets[t.token] == t;
      }
    }
  }

  lemma Quiet(cfg: Config, c: Coord, s: Store, v: Store, before: set<RankLease>)
    requires LeasesOk(cfg, c, s, before) && Moves(s, v, {}) && v.granted == s.granted
    ensures LeasesOk(cfg, c, v, before)
  {
    LeasesMove(cfg, c, s, v, {}, before);
  }

  // A release call for a ticket that is being retired.
  lemma Releasing(cfg: Config, c: Coord, s: Store, v: Store, before: set<RankLease>, t: Token, at: RankLease)
    requires LeasesOk(cfg, c, s, before) && Moves(s, v, {at}) && v.granted == s.granted
    requires t in c.tickets && t !in c.valid && Owns(c.tickets[t], at)
    ensures LeasesOk(cfg, c, v, before)
  {
    LeasesMove(cfg, c, s, v, {at}, before);
  }

  // An invalidation call for a pair that is vetoed.
  lemma Invalidating(cfg: Config, c: Coord, s: Store, v: Store, before: set<RankLease>, rank: nat, p: Pair)
    requires LeasesOk(cfg, c, s, before) && Moves(s, v, Writers(s, rank, p)) && v.granted == s.granted && p in c.invalid
    ensures LeasesOk(cfg, c, v, before)
  {
    LeasesMove(cfg, c, s, v, Writers(s, rank, p), before);
  }

  lemma GoneStays(s: Store, v: Store, spent: set<RankLease>, at: RankLease)
    requires Moves(s, v, spent) && at !in s.held && at in s.granted
    ensures at !in v.held
  {
  }

  function MinOf(s: seq<real>): (m: real)
    requires s != []
    ensures m in s && forall i :: 0 <= i < |s| ==> m <= s[i]
  {
    if |s| == 1 then s[0] else
      var m := MinOf(s[1..]);
      if s[0] < m then s[0] else m
  }

  // Thirty seconds, or a tenth of the lease if that is less.
  function Margin(ttl: real): real { if ttl * 0.1 < 30.0 then ttl * 0.1 else 30.0 }

  lemma TicketAt(cfg: Config, c: Coord, t: Token)
    requires BooksOk(cfg, c) && t in c.tickets
    ensures c.tickets[t].token == t && |c.tickets[t].leases| == cfg.ranks
  {
  }

  // A ticket that is retired keeps its leases until they are given back.
  lemma RetireLeases(cfg: Config, c: Coord, s: Store, before: set<RankLease>, t: Token)
    requires LeasesOk(cfg, c, s, before)
    ensures LeasesOk(cfg, Retire(c, t), s, before)
    ensures Retire(c, t) == Step(cfg, c, Released(t, false, false)) && t in c.tickets ==> t !in Retire(c, t).valid
  {
    LessStep(cfg, c, Released(t, false, false));
    hide Less;
    LeasesLess(cfg, c, Retire(c, t), s, before);
  }

  lemma DropLeases(cfg: Config, c: Coord, s: Store, before: set<RankLease>, t: Token)
    requires LeasesOk(cfg, c, s, before) && t in c.tickets
    requires forall at :: Owns(c.tickets[t], at) ==> at !in s.held
    ensures LeasesOk(cfg, Drop(c, t), s, before)
  {
    LessDrop(c, t);
    hide Less, Drop;
    LeasesLess(cfg, c, Drop(c, t), s, before);
  }

  lemma GrantedTo(cfg: Config, c: Coord, s: Store, before: set<RankLease>, t: Token, at: RankLease)
    requires LeasesOk(cfg, c, s, before) && t in c.tickets && Owns(c.tickets[t], at)
    ensures at in s.granted
  {
  }

  lemma IsSound(cfg: Config, c: Coord, s: Store, before: set<RankLease>)
    requires LeasesOk(cfg, c, s, before)
    ensures Sound(s)
  {
  }

  lemma NothingOut(cfg: Config, c: Coord, t: Token, drop: bool)
    requires t !in c.tickets
    ensures Step(cfg, c, Released(t, true, drop)) == c
  {
  }

  lemma StepLeases(cfg: Config, c: Coord, s: Store, before: set<RankLease>, e: Event)
    requires LeasesOk(cfg, c, s, before) && !e.Granted? && !e.Extended? && !(e.Released? && e.acked && e.drop)
    ensures LeasesOk(cfg, Step(cfg, c, e), s, before)
  {
    hide Step, Less, LeasesOk;
    LessStep(cfg, c, e);
    LeasesLess(cfg, c, Step(cfg, c, e), s, before);
  }

  lemma AckLeases(cfg: Config, c: Coord, s: Store, before: set<RankLease>, p: Pair)
    requires LeasesOk(cfg, c, s, before)
    ensures LeasesOk(cfg, Acknowledge(c, p), s, before)
  {
    hide Less, LeasesOk, ClearVeto;
    var a := c.(acked := c.acked + {p});
    LessPlain(c, a);
    LessClear(a, p);
    LessTwice(c, a, ClearVeto(a, p));
    LeasesLess(cfg, c, ClearVeto(a, p), s, before);
  }

  lemma WindowHolds(cfg: Config, c: Coord, s: Store, before: set<RankLease>, t: Ticket)
    requires BooksOk(cfg, c) && LeasesOk(cfg, c, s, before) && Deadline(c, t).Some? && !s.down
    requires s.now < Deadline(c, t).value
    ensures |t.leases| == cfg.ranks && 0.0 < cfg.margin
    ensures forall at :: Owns(t, at) ==> at in s.held && Deadline(c, t).value + cfg.margin <= s.held[at].expiry
  {
  }

  lemma StillBacked(s: Store, v: Store, leases: seq<Lease>, n: nat, until: real)
    requires Moves(s, v, {}) && n <= |leases|
    requires forall r :: 0 <= r < n ==> Backed(s, At(r, leases[r]), until)
    ensures s.now <= v.now && forall r :: 0 <= r < n ==> Backed(v, At(r, leases[r]), until)
  {
    forall r | 0 <= r < n ensures Backed(v, At(r, leases[r]), until) {
      BackedOn(s, v, {}, At(r, leases[r]), until);
    }
  }

  // ---- a reservation on its way ---------------------------------------------------

  // `hand` are the leases granted to a reservation in progress.
  ghost predicate InHand(cfg: Config, c: Coord, s: Store, before: set<RankLease>, hand: set<RankLease>, pair: Pair) {
    && Sound(s) && before <= s.granted && WindowsOk(cfg, c, s) && OwnersOk(c, s)
    && (forall at :: at in hand ==> at in s.granted && !Owned(c, at))
    && (forall at :: at in hand && at in s.held ==> s.held[at].pair == pair)
    && (forall at :: at in s.held && at !in before ==>
          at in s.unseen || at in s.refused || Owned(c, at) || at in hand)
  }

  lemma InHandStart(cfg: Config, c: Coord, s: Store, before: set<RankLease>, pair: Pair)
    requires LeasesOk(cfg, c, s, before)
    ensures InHand(cfg, c, s, before, {}, pair)
  {
    hide WindowsOk, OwnersOk;
  }

  // No lease behind a window is among these.
  ghost predicate Harmless(c: Coord, spent: set<RankLease>) {
    forall t, at :: t in c.valid && t in c.tickets && c.tickets[t].pair !in c.invalid && Owns(c.tickets[t], at) ==>
      at !in spent
  }

  lemma InHandParts(cfg: Config, c: Coord, s: Store, v: Store, spent: set<RankLease>)
    requires WindowsOk(cfg, c, s) && OwnersOk(c, s) && Moves(s, v, spent) && Harmless(c, spent)
    requires forall at :: Owned(c, at) ==> at in s.granted
    ensures WindowsOk(cfg, c, v) && OwnersOk(c, v)
  {
    forall t, at | t in c.valid && t in c.tickets && c.tickets[t].pair !in c.invalid && Owns(c.tickets[t], at)
      ensures Backed(v, at, c.valid[t] + cfg.margin)
    {
      assert Owned(c, at);
      BackedOn(s, v, spent, at, c.valid[t] + cfg.margin);
    }
  }

  lemma OwnedGranted(c: Coord, s: Store)
    requires OwnersOk(c, s)
    ensures forall at :: Owned(c, at) ==> at in s.granted
  {
  }

  // Calls other than a grant.
  lemma InHandMove(cfg: Config, c: Coord, s: Store, v: Store, before: set<RankLease>, hand: set<RankLease>, pair: Pair,
                   spent: set<RankLease>)
    requires InHand(cfg, c, s, before, hand, pair) && Moves(s, v, spent) && Harmless(c, spent)
    requires forall at :: at in v.held && at !in s.held ==> at in v.unseen
    ensures InHand(cfg, c, v, before, hand, pair)
  {
    OwnedGranted(c, s);
    InHandParts(cfg, c, s, v, spent);
    hide WindowsOk, OwnersOk, Owned;
  }

  lemma InHandMore(cfg: Config, c: Coord, s: Store, v: Store, before: set<RankLease>, hand: set<RankLease>, pair: Pair,
                   at: RankLease)
    requires InHand(cfg, c, s, before, hand, pair) && Moves(s, v, {})
    requires at !in s.granted && v.granted == s.granted + {at} && (at in v.held ==> v.held[at].pair == pair)
    ensures InHand(cfg, c, v, before, hand + {at}, pair)
  {
    OwnedGranted(c, s);
    InHandParts(cfg, c, s, v, {});
    hide WindowsOk, OwnersOk, Owned;
  }

  lemma InHandSound(cfg: Config, c: Coord, s: Store, before: set<RankLease>, hand: set<RankLease>, pair: Pair)
    requires InHand(cfg, c, s, before, hand, pair)
    ensures Sound(s)
  {
  }

  lemma HandHarmless(cfg: Config, c: Coord, s: Store, before: set<RankLease>, hand: set<RankLease>, pair: Pair,
                     spent: set<RankLease>)
    requires InHand(cfg, c, s, before, hand, pair) && spent <= hand
    ensures Harmless(c, spent)
  {
    hide WindowsOk, OwnersOk;
    forall t, at | t in c.valid && t in c.tickets && Owns(c.tickets[t], at) ensures at !in spent {
      assert Owned(c, at);
    }
  }

  lemma InHandKept(cfg: Config, c: Coord, s: Store, v: Store, before: set<RankLease>, hand: set<RankLease>, pair: Pair,
                   spent: set<RankLease>, at: RankLease)
    requires InHand(cfg, c, s, before, hand, pair) && Moves(s, v, spent) && at in hand
    requires at !in s.held || at in s.refused
    ensures at !in v.held || at in v.refused
  {
  }

  lemma InHandGrant(cfg: Config, c: Coord, s: Store, before: set<RankLease>, hand: set<RankLease>, t: Ticket, until: real)
    requires InHand(cfg, c, s, before, hand, t.pair) && t.token !in c.tickets && 0.0 < cfg.margin
    requires forall at :: Owns(t, at) <==> at in hand
    requires forall at :: at in hand ==> Backed(s, at, until + cfg.margin)
    ensures LeasesOk(cfg, Step(cfg, c, Granted(t, until)), s, before)
  {
    hide WindowsOk, OwnersOk, Owned, LeasesOk, Step;
    LeasesGrant(cfg, c, s, before, t, until);
  }

  lemma InHandGone(cfg: Config, c: Coord, s: Store, before: set<RankLease>, hand: set<RankLease>, pair: Pair)
    requires InHand(cfg, c, s, before, hand, pair)
    requires forall at :: at in hand ==> at !in s.held || at in s.refused
    ensures LeasesOk(cfg, c, s, before)
  {
    hide WindowsOk, OwnersOk, Owned;
  }

  // What a reservation that came to nothing may leave at the ranks.
  lemma OnlyStrays(cfg: Config, c: Coord, s: Store, v: Store, before: set<RankLease>)
    requires LeasesOk(cfg, c, s, before) && LeasesOk(cfg, c, v, before)
    ensures forall at :: at in v.held && at !in s.granted ==> at in v.unseen || at in v.refused
  {
  }

  lemma PairedAt(cfg: Config, c: Coord, id: Identity)
    requires BooksOk(cfg, c) && id in c.identities
    ensures c.identities[id] in c.tickets && c.tickets[c.identities[id]].Id() == id
    ensures c.tickets[c.identities[id]].token == c.identities[id]
  {
  }

  lemma ExistingIs(cfg: Config, c: Coord, id: Identity)
    requires BooksOk(cfg, c)
    ensures Lookup(c, id).Existing? ==> Lookup(c, id).ticket.Id() == id
  {
    if id in c.identities { PairedAt(cfg, c, id); }
  }

  lemma AlwaysAllowed(cfg: Config, c: Coord, e: Event)
    requires e.Released?
    ensures Allowed(cfg, c, e)
  {
  }

  // ---- leases over several operations --------------------------------------------------------------

  // The ticket may be relied on.
  predicate Live(c: Coord, t: Token) { t in c.tickets && t !in c.retiring && c.tickets[t].pair !in c.invalid }

  ghost predicate Relied(c: Coord, at: RankLease) {
    exists t :: Live(c, t) && Owns(c.tickets[t], at)
  }

  // From (c, s) to (d, v), a lease that is still relied on was relied on all along, and it is still
  // backed as long as it was.
  ghost predicate Lasting(c: Coord, s: Store, d: Coord, v: Store) {
    && s.now <= v.now && s.granted <= v.granted && (s.down ==> v.down)
    && (forall at :: at in s.granted && Relied(d, at) ==> Relied(c, at))
    && (forall at, until :: at in s.granted && Relied(d, at) && Backed(s, at, until) ==> Backed(v, at, until))
  }

  lemma LastingTwice(c: Coord, s: Store, d: Coord, v: Store, e: Coord, u: Store)
    requires Lasting(c, s, d, v) && Lasting(d, v, e, u)
    ensures Lasting(c, s, e, u)
  {
    hide Relied, Backed;
  }

  // The stores move on without touching leases relied on.
  lemma LastingStores(c: Coord, s: Store, v: Store, spent: set<RankLease>)
    requires Moves(s, v, spent) && forall at :: at in spent ==> !Relied(c, at)
    ensures Lasting(c, s, c, v)
  {
    hide Relied;
    forall at, until | at in s.granted && Relied(c, at) && Backed(s, at, until) ensures Backed(v, at, until) {
      BackedOn(s, v, spent, at, until);
    }
  }

  // The books move on without relying on anything new.
  lemma LastingBooks(c: Coord, d: Coord, s: Store)
    requires forall t :: Live(d, t) ==> Live(c, t) && d.tickets[t] == c.tickets[t]
    ensures Lasting(c, s, d, s)
  {
    forall at | Relied(d, at) ensures Relied(c, at) {
      var t :| Live(d, t) && Owns(d.tickets[t], at);
      assert Live(c, t) && Owns(c.tickets[t], at);
    }
    hide Relied;
  }

  lemma LiveDrop(c: Coord, k: Token)
    ensures forall t :: Live(Drop(c, k), t) ==> Live(c, t) && Drop(c, k).tickets[t] == c.tickets[t]
  {
    hide MaxOf;
  }

  lemma LiveAck(c: Coord, p: Pair)
    ensures forall t :: Live(Acknowledge(c, p), t) ==> Live(c, t) && Acknowledge(c, p).tickets[t] == c.tickets[t]
  {
  }

  // Leases in hand belong to no ticket yet.
  lemma InHandFree(cfg: Config, c: Coord, s: Store, before: set<RankLease>, hand: set<RankLease>, pair: Pair, at: RankLease)
    requires InHand(cfg, c, s, before, hand, pair) && at in hand
    ensures !Relied(c, at)
  {
    hide WindowsOk, OwnersOk;
    if Relied(c, at) {
      ReliedOwned(c, at);
    }
  }

  lemma LiveStep(cfg: Config, c: Coord, e: Event)
    requires !e.Granted?
    ensures forall t :: Live(Step(cfg, c, e), t) ==> Live(c, t) && Step(cfg, c, e).tickets[t] == c.tickets[t]
  {
    hide Drop, Retire, Raise, Acknowledge;
    match e
    case Extended(_, _) =>
    case Lapsed(_) =>
    case Released(t, _, _) => LiveRetire(c, t); LiveDrop(Retire(c, t), t);
    case Quarantined(p, _) => LiveRaise(cfg, c, p); LiveAck(Raise(cfg, c, p), p);
  }

  lemma LiveRetire(c: Coord, k: Token)
    ensures forall t :: Live(Retire(c, k), t) ==> Live(c, t) && Retire(c, k).tickets[t] == c.tickets[t]
  {
  }

  lemma LiveRaise(cfg: Config, c: Coord, p: Pair)
    ensures forall t :: Live(Raise(cfg, c, p), t) ==> Live(c, t) && Raise(cfg, c, p).tickets[t] == c.tickets[t]
  {
  }

  lemma LastingStep(cfg: Config, c: Coord, e: Event, s: Store)
    requires !e.Granted?
    ensures Lasting(c, s, Step(cfg, c, e), s)
  {
    LiveStep(cfg, c, e);
    hide Step;
    LastingBooks(c, Step(cfg, c, e), s);
  }

  // A new ticket relies on new leases.
  lemma LastingGrant(cfg: Config, c: Coord, s: Store, t: Ticket, until: real, v: Store)
    requires Lasting(c, s, c, v) && t.token !in c.tickets && forall at :: Owns(t, at) ==> at !in s.granted
    ensures Lasting(c, s, Step(cfg, c, Granted(t, until)), v)
  {
    var d := Step(cfg, c, Granted(t, until));
    assert d.tickets == c.tickets[t.token := t] && d.retiring == c.retiring && d.invalid == c.invalid;
    hide Step;
    forall at | at in s.granted && Relied(d, at) ensures Relied(c, at) {
      var k :| Live(d, k) && Owns(d.tickets[k], at);
      assert k != t.token && Live(c, k) && Owns(c.tickets[k], at);
    }
    hide Relied, Backed;
  }

  lemma ReliedOwned(c: Coord, at: RankLease)
    requires Relied(c, at)
    ensures Owned(c, at)
  {
  }

  // A ticket being released is not relied on, nor is a ticket of a vetoed pair.
  lemma NotRelied(cfg: Config, c: Coord, s: Store, before: set<RankLease>, t: Token, at: RankLease)
    requires LeasesOk(cfg, c, s, before) && t in c.tickets && Owns(c.tickets[t], at) && !Live(c, t)
    ensures !Relied(c, at)
  {
    hide WindowsOk, NoStrays;
  }

  lemma VetoedNotRelied(cfg: Config, c: Coord, s: Store, before: set<RankLease>, rank: nat, p: Pair)
    requires LeasesOk(cfg, c, s, before) && p in c.invalid
    ensures forall at :: at in Writers(s, rank, p) ==> !Relied(c, at)
  {
    hide WindowsOk, NoStrays;
  }

  // No store call but a grant puts a writing lease back.
  lemma WritersGone(s: Store, v: Store, spent: set<RankLease>, rank: nat, p: Pair)
    requires Moves(s, v, spent) && v.granted == s.granted && Writers(s, rank, p) == {}
    ensures Writers(v, rank, p) == {}
  {
    assert forall at :: at in Writers(v, rank, p) ==> at in Writers(s, rank, p);
  }

  /** A deadline once read is good for every later moment before it: unless the ticket was released or its
      pair vetoed in between, or a store failed, every store still holds its lease. */
  lemma DeadlineLasts(cfg: Config, c: Coord, s: Store, before: set<RankLease>, t: Ticket, d: Coord, v: Store)
    requires BooksOk(cfg, c) && LeasesOk(cfg, c, s, before) && Lasting(c, s, d, v)
    requires Deadline(c, t).Some? && v.now < Deadline(c, t).value && !v.down
    requires t.token in d.tickets && d.tickets[t.token] == t && Live(d, t.token)
    ensures |t.leases| == cfg.ranks
    ensures forall at :: Owns(t, at) ==> at in v.held && Deadline(c, t).value + cfg.margin <= v.held[at].expiry
  {
    assert c.tickets[t.token] == t && t.token in c.valid;
    var until := Deadline(c, t).value;
    forall at | Owns(t, at) ensures at in v.held && until + cfg.margin <= v.held[at].expiry {
      assert Backed(s, at, until + cfg.margin);
      assert Relied(d, at);
      assert at in s.granted;
    }
  }

  lemma ExtendedIs(cfg: Config, c: Coord, t: Token, until: real)
    ensures t in c.tickets && RenewOk(c, c.tickets[t]) ==> Allowed(cfg, c, Extended(t, until))
    ensures Step(cfg, c, Extended(t, until)) == c.(valid := c.valid[t := until])
  {
  }

  lemma LapsedIs(cfg: Config, c: Coord, t: Token)
    ensures t in c.tickets && RenewOk(c, c.tickets[t]) ==> Allowed(cfg, c, Lapsed(t))
    ensures Step(cfg, c, Lapsed(t)) == c.(valid := c.valid - {t})
  {
  }

  // A veto takes no ticket away.
  lemma SameOut(cfg: Config, c: Coord, p: Pair, acked: bool)
    ensures Step(cfg, c, Quarantined(p, acked)).tickets == c.tickets
  {
    hide Raise, Acknowledge, Drop, Retire, Commit;
    RaiseTakesNone(cfg, c, p);
    AckTakesNone(Raise(cfg, c, p), p);
  }

  lemma RaiseTakesNone(cfg: Config, c: Coord, p: Pair)
    ensures Raise(cfg, c, p).tickets == c.tickets
  {
  }

  lemma AckTakesNone(c: Coord, p: Pair)
    ensures Acknowledge(c, p).tickets == c.tickets
  {
    hide Drained;
  }
}
