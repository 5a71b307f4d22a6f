/** The byte credits of tickets and of reservations in progress. */
module Credits {
  import opened Basics
  import opened Coordination
  import opened Sums

  function TicketCharge(t: Ticket): nat { MaxOf(t.sizes) }

  function ChargeMap(tickets: map<Token, Ticket>): map<Token, nat> {
    map t | t in tickets :: TicketCharge(tickets[t])
  }

  ghost function TicketCharges(tickets: map<Token, Ticket>): nat { Sum(ChargeMap(tickets)) }

  ghost function PendingCharges(cfg: Config, pending: set<Identity>): nat {
    Sum(map id | id in pending :: Charge(cfg, id))
  }

  lemma ChargeAdded(cfg: Config, pending: set<Identity>, id: Identity)
    requires id !in pending
    ensures PendingCharges(cfg, pending + {id}) == PendingCharges(cfg, pending) + Charge(cfg, id)
  {
    var m := map x | x in pending :: Charge(cfg, x);
    SumInsert(m, id, Charge(cfg, id));
    assert (map x | x in pending + {id} :: Charge(cfg, x)) == m[id := Charge(cfg, id)];
  }

  lemma ChargeRemoved(cfg: Config, pending: set<Identity>, id: Identity)
    requires id in pending
    ensures PendingCharges(cfg, pending) == PendingCharges(cfg, pending - {id}) + Charge(cfg, id)
  {
    ChargeAdded(cfg, pending - {id}, id);
    assert pending - {id} + {id} == pending;
  }

  lemma TicketAdded(tickets: map<Token, Ticket>, t: Ticket)
    requires t.token !in tickets
    ensures TicketCharges(tickets[t.token := t]) == TicketCharges(tickets) + TicketCharge(t)
  {
    SumInsert(ChargeMap(tickets), t.token, TicketCharge(t));
    assert ChargeMap(tickets[t.token := t]) == ChargeMap(tickets)[t.token := TicketCharge(t)];
  }

  lemma TicketRemoved(tickets: map<Token, Ticket>, t: Token)
    requires t in tickets && tickets[t].token == t
    ensures TicketCharges(tickets) == TicketCharges(tickets - {t}) + TicketCharge(tickets[t])
  {
    TicketAdded(tickets - {t}, tickets[t]);
    assert (tickets - {t})[t := tickets[t]] == tickets;
  }
}
