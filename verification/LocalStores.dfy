/** The ranks' stores as the in-process coordinator meets them: a store may refuse, fail or lose
    any call it is given, and time passes during every one of them. */
module LocalStores {
  import opened Basics
  import opened Coordination

  // What a store answered: an acknowledgement, an explicit refusal, or an exception.
  datatype Reply = Yes | No | Raised

  // What the stores were asked and answered, and what the clock said.
  datatype Call =
    | Clock(t: real)
    | Reserved(rank: nat, id: Identity, size: Option<nat>, got: Option<Lease>)
    | Cleaned(e: Entry, acked: bool)
    | Renewed(rank: nat, lease: Lease, reply: Reply)
    | Looked(rank: nat, pair: Pair, yes: bool)

  // The calls of a loop over the ranks, as far as it came.
  function Renewals(leases: seq<Lease>, replies: seq<Reply>): (calls: seq<Call>)
    requires |replies| <= |leases|
  {
    seq(|replies|, r requires 0 <= r < |replies| => Renewed(r, leases[r], replies[r]))
  }

  lemma RenewedMore(leases: seq<Lease>, replies: seq<Reply>, reply: Reply)
    requires |replies| < |leases|
    ensures Renewals(leases, replies + [reply]) == Renewals(leases, replies) + [Renewed(|replies|, leases[|replies|], reply)]
  {
  }

  function Looks(pair: Pair, yes: seq<bool>): (calls: seq<Call>) {
    seq(|yes|, r requires 0 <= r < |yes| => Looked(r, pair, yes[r]))
  }

  function Recalls(leases: seq<Lease>, acks: seq<bool>): (calls: seq<Call>)
    requires |acks| <= |leases|
  {
    seq(|acks|, r requires 0 <= r < |acks| => Cleaned(Entry.Release(At(r, leases[r])), acks[r]))
  }

  function Vetoes(pair: Pair, acks: seq<bool>): (calls: seq<Call>) {
    seq(|acks|, r requires 0 <= r < |acks| => Cleaned(Entry.Invalidate(r, pair), acks[r]))
  }

  // The stores that granted a lease; a store is told its own size.
  function Grants(id: Identity, sizes: seq<nat>, leases: seq<Lease>): (calls: seq<Call>)
    requires |leases| <= |sizes|
  {
    seq(|leases|, r requires 0 <= r < |leases| => Reserved(r, id, SizeFor(id, sizes, r), Some(leases[r])))
  }

  function SizeFor(id: Identity, sizes: seq<nat>, rank: nat): Option<nat>
    requires rank < |sizes|
  {
    if id.writing then Some(sizes[rank]) else None
  }

  lemma OneMoreCall(pair: Pair, leases: seq<Lease>, done: seq<bool>, x: bool)
    ensures Looks(pair, done + [x]) == Looks(pair, done) + [Looked(|done|, pair, x)]
    ensures Vetoes(pair, done + [x]) == Vetoes(pair, done) + [Cleaned(Entry.Invalidate(|done|, pair), x)]
    ensures |done| < |leases| ==>
      Recalls(leases, done + [x]) == Recalls(leases, done) + [Cleaned(Entry.Release(At(|done|, leases[|done|])), x)]
    ensures (done + [x])[|done|] == x && forall r :: 0 <= r < |done| ==> (done + [x])[r] == done[r]
    ensures Looks(pair, []) == [] && Vetoes(pair, []) == [] && Recalls(leases, []) == []
  {
  }

  lemma GrantedMore(id: Identity, sizes: seq<nat>, leases: seq<Lease>, lease: Lease)
    requires |leases| < |sizes|
    ensures Grants(id, sizes, leases + [lease]) ==
      Grants(id, sizes, leases) + [Reserved(|leases|, id, SizeFor(id, sizes, |leases|), Some(lease))]
    ensures Grants(id, sizes, []) == []
  {
  }

  datatype Holding = Holding(pair: Pair, writing: bool, expiry: real)

  // All stores together, with a record of the calls that left something behind.
  datatype Store = Store(
    now: real,
    down: bool,                        // some store has failed or is closed
    held: map<RankLease, Holding>,
    granted: set<RankLease>,           // every lease ever granted
    unseen: set<RankLease>,            // granted by a call that did not return it
    refused: set<RankLease>)           // some release of it was not acknowledged

  // While no store is down, the lease is held until `until`.
  predicate Backed(s: Store, at: RankLease, until: real) {
    !s.down && s.now < until ==> at in s.held && until <= s.held[at].expiry
  }

  predicate Sound(s: Store) { s.held.Keys <= s.granted }

  /** What any store call may do beside its own effect: leases expire, and a failed store may lose
      any of them; no other lease goes except those in `spent`, and none appears unless granted. */
  ghost predicate Moves(s: Store, v: Store, spent: set<RankLease>) {
    && Sound(s) && Sound(v)
    && s.now <= v.now && (s.down ==> v.down)
    && s.granted <= v.granted && s.unseen <= v.unseen && s.refused <= v.refused
    && v.held.Keys <= s.held.Keys + (v.granted - s.granted)
    && (forall at :: at in s.held && at !in spent && !v.down && v.now < s.held[at].expiry ==>
          at in v.held && s.held[at].expiry <= v.held[at].expiry)
    && (forall at :: at in s.held && at in v.held ==>
          s.held[at].pair == v.held[at].pair && s.held[at].writing == v.held[at].writing)
  }

  lemma BackedOn(s: Store, v: Store, spent: set<RankLease>, at: RankLease, until: real)
    requires Moves(s, v, spent) && Backed(s, at, until) && at !in spent
    ensures Backed(v, at, until)
  {
  }

  // The writing leases of a pair at a rank: an invalidation buries the object under them. Reading
  // leases go on serving the buried object.
  function Writers(s: Store, rank: nat, pair: Pair): set<RankLease> {
    set at | at in s.held && at.rank == rank && s.held[at].pair == pair && s.held[at].writing
  }

  // Each call is answered somehow.
  class Ranks {
    const seconds: seq<real>           // lease_seconds by rank
    var s: Store
    ghost var calls: seq<Call>         // every call so far

    constructor (seconds: seq<real>)
      ensures this.seconds == seconds && s.held == map[] && s.granted == {} && calls == []
    {
      this.seconds, calls := seconds, [];
      s := Store(0.0, false, map[], {}, {}, {});
    }

    // Time passes, leases lapse, a store may fail.
    method Pass()
      requires Sound(s)
      modifies this`s
      ensures Moves(old(s), s, {}) && s.granted == old(s).granted
      ensures s.unseen == old(s).unseen && s.refused == old(s).refused
    {
      var d: real, fails: bool := *, *;
      var later := if d < 0.0 then s.now else s.now + d;
      if fails {
        s := s.(now := later, down := true, held := map[]);
      } else {
        s := s.(now := later, held := map at | at in s.held && later < s.held[at].expiry :: s.held[at]);
      }
    }

    method Time() returns (t: real)
      requires Sound(s)
      modifies this
      ensures Moves(old(s), s, {}) && s.granted == old(s).granted && t == s.now
      ensures s.unseen == old(s).unseen && s.refused == old(s).refused
      ensures calls == old(calls) + [Clock(t)]
    {
      Pass();
      t := s.now;
      calls := calls + [Clock(t)];
    }

    // `reserve_read` and `reserve_write`. None: refused, or an exception.
    method Reserve(rank: nat, id: Identity, size: Option<nat>) returns (lease: Option<Lease>)
      requires rank < |seconds| && Sound(s)
      modifies this
      ensures Moves(old(s), s, {}) && s.refused == old(s).refused
      ensures lease.Some? ==>
        var at := At(rank, lease.value);
        && at !in old(s).granted && s.granted == old(s).granted + {at} && s.unseen == old(s).unseen
        && Backed(s, at, old(s).now + seconds[rank])
        && (at in s.held ==> s.held[at].pair == id.pair && s.held[at].writing == id.writing)
      ensures lease.None? ==> s.unseen == old(s).unseen + (s.granted - old(s).granted)
      ensures calls == old(calls) + [Reserved(rank, id, size, lease)]
    {
      var grants: bool, seen: bool, x: int := *, *, *;
      var began := s.now;
      Pass();
      var novel := At(rank, if x < 0 then 0 else x);
      if !grants || novel in s.granted {
        calls := calls + [Reserved(rank, id, size, None)];
        return None;
      }
      s := s.(granted := s.granted + {novel});
      if s.now < began + seconds[rank] {
        s := s.(held := s.held[novel := Holding(id.pair, id.writing, began + seconds[rank])]);
      }
      if seen {
        calls := calls + [Reserved(rank, id, size, Some(novel.lease))];
        return Some(novel.lease);
      }
      s := s.(unseen := s.unseen + {novel});
      calls := calls + [Reserved(rank, id, size, None)];
      return None;
    }

    method Release(rank: nat, lease: Lease) returns (reply: Reply)
      requires Sound(s)
      modifies this
      ensures Moves(old(s), s, {At(rank, lease)}) && s.granted == old(s).granted && s.unseen == old(s).unseen
      ensures s.refused == if reply.Yes? then old(s).refused else old(s).refused + {At(rank, lease)}
      ensures reply.Yes? ==> At(rank, lease) !in s.held
      ensures calls == old(calls) + [Cleaned(Entry.Release(At(rank, lease)), reply.Yes?)]
    {
      reply := *;
      calls := calls + [Cleaned(Entry.Release(At(rank, lease)), reply.Yes?)];
      var effect: bool := *;
      Pass();
      if reply.Yes? || effect {
        s := s.(held := s.held - {At(rank, lease)});
      }
      if !reply.Yes? {
        s := s.(refused := s.refused + {At(rank, lease)});
      }
    }

    method Renew(rank: nat, lease: Lease) returns (reply: Reply)
      requires rank < |seconds| && Sound(s)
      modifies this
      ensures Moves(old(s), s, {}) && s.granted == old(s).granted
      ensures s.unseen == old(s).unseen && s.refused == old(s).refused
      ensures reply.Yes? ==> Backed(s, At(rank, lease), old(s).now + seconds[rank])
      ensures calls == old(calls) + [Renewed(rank, lease, reply)]
    {
      reply := *;
      var began := s.now;
      Pass();
      var at := At(rank, lease);
      if at in s.held {
        if s.held[at].expiry < began + seconds[rank] {
          s := s.(held := s.held[at := s.held[at].(expiry := began + seconds[rank])]);
        }
      } else {
        reply := if reply.Yes? && s.now < began + seconds[rank] then No else reply;
      }
      calls := calls + [Renewed(rank, lease, reply)];
    }

    method Exists(rank: nat, pair: Pair) returns (reply: Reply)
      requires Sound(s)
      modifies this
      ensures Moves(old(s), s, {}) && s.granted == old(s).granted
      ensures s.unseen == old(s).unseen && s.refused == old(s).refused
      ensures calls == old(calls) + [Looked(rank, pair, reply.Yes?)]
    {
      reply := *;
      calls := calls + [Looked(rank, pair, reply.Yes?)];
      Pass();
    }

    method Invalidate(rank: nat, pair: Pair) returns (reply: Reply)
      requires Sound(s)
      modifies this
      ensures Moves(old(s), s, Writers(old(s), rank, pair)) && s.granted == old(s).granted
      ensures s.unseen == old(s).unseen && s.refused == old(s).refused
      ensures reply.Yes? ==> Writers(s, rank, pair) == {}
      ensures calls == old(calls) + [Cleaned(Entry.Invalidate(rank, pair), reply.Yes?)]
    {
      reply := *;
      calls := calls + [Cleaned(Entry.Invalidate(rank, pair), reply.Yes?)];
      var takes: bool := *;
      var gone := Writers(s, rank, pair);
      Pass();
      if reply.Yes? || takes {
        s := s.(held := s.held - gone);
      }
    }
  }
}
