/** What the two all-rank coordinators share: tickets, identities, geometry, and the
    effect of each critical section on the coordinator's own bookkeeping. */
module Coordination {
  import opened Basics

  type Byte = b: nat | b < 256
  type Token = nat
  type Lease = nat

  // A cached object: namespace (a sha256 fingerprint in hex) and key.
  datatype Pair = Pair(ns: string, key: seq<Byte>)

  // What a reservation is made for. `owner` is the owner's UTF-8 encoding.
  datatype Identity = Identity(pair: Pair, owner: seq<Byte>, writing: bool)

  datatype Ticket = Ticket(token: Token, pair: Pair, leases: seq<Lease>, sizes: seq<nat>,
                           owner: seq<Byte>, writing: bool)
  {
    function Id(): Identity { Identity(pair, owner, writing) }
  }

  // A lease as one rank knows it.
  datatype RankLease = At(rank: nat, lease: Lease)

  predicate Owns(t: Ticket, at: RankLease) {
    at.rank < |t.leases| && t.leases[at.rank] == at.lease
  }

  // The leases of a ticket, rank by rank.
  function LeaseSet(leases: seq<Lease>): (s: set<RankLease>)
    ensures forall at :: at in s <==> at.rank < |leases| && leases[at.rank] == at.lease
  {
    if leases == [] then {} else
      var n := |leases| - 1;
      LeaseSet(leases[..n]) + {At(n, leases[n])}
  }

  // A cleanup call that has to reach a rank.
  datatype Entry = Release(at: RankLease) | Invalidate(rank: nat, pair: Pair)

  datatype Config = Config(ranks: nat, sizeByGroup: seq<seq<nat>>, maxKeys: nat, maxBytes: nat,
                           ttl: real, margin: real, retryCap: nat, drainLimit: nat)
  {
    // What the constructors insist on.
    ghost predicate Valid() {
      && 0 < ranks && 0 < maxKeys && 0 < maxBytes && 0 < retryCap && 0 < drainLimit
      && 0.0 < margin < ttl
      && forall g :: 0 <= g < |sizeByGroup| ==>
           |sizeByGroup[g]| == ranks && forall r :: 0 <= r < ranks ==> 0 < sizeByGroup[g][r]
    }
  }

  function BigEndian(s: seq<Byte>): nat {
    if s == [] then 0 else BigEndian(s[..|s| - 1]) * 256 + s[|s| - 1] as nat
  }

  // The last four bytes of the key name its group.
  function GroupOf(key: seq<Byte>): nat {
    BigEndian(if |key| < 4 then key else key[|key| - 4..])
  }

  lemma OneMoreByte(s: seq<Byte>, x: Byte)
    ensures BigEndian(s + [x]) == BigEndian(s) * 256 + x
  {
    assert (s + [x])[..|s|] == s;
  }

  lemma ThreeBytes(b: Byte, c: Byte, d: Byte)
    ensures BigEndian([d]) == d && BigEndian([c, d]) == c * 256 + d
    ensures BigEndian([b, c, d]) == b * 65536 + c * 256 + d
  {
    OneMoreByte([], d);
    OneMoreByte([], c);
    OneMoreByte([c], d);
    OneMoreByte([], b);
    OneMoreByte([b], c);
    OneMoreByte([b, c], d);
    assert [] + [d] == [d] && [] + [c] == [c] && [] + [b] == [b];
    assert [c] + [d] == [c, d] && [b] + [c] == [b, c] && [b, c] + [d] == [b, c, d];
  }

  /** Of the last four bytes of a key the first counts most, whatever precedes them; a shorter key is
      taken as a whole. */
  lemma GroupNamed(prefix: seq<Byte>, a: Byte, b: Byte, c: Byte, d: Byte)
    ensures GroupOf(prefix + [a, b, c, d]) == a * 16777216 + b * 65536 + c * 256 + d
    ensures GroupOf([]) == 0 && GroupOf([d]) == d && GroupOf([c, d]) == c * 256 + d
    ensures GroupOf([b, c, d]) == b * 65536 + c * 256 + d
  {
    var key := prefix + [a, b, c, d];
    assert key[|key| - 4..] == [a, b, c, d];
    ThreeBytes(a, b, c);
    ThreeBytes(b, c, d);
    OneMoreByte([a, b, c], d);
    assert [a, b, c] + [d] == [a, b, c, d];
  }

  predicate HexDigit(c: char) { '0' <= c <= '9' || 'a' <= c <= 'f' }

  predicate WellFormed(id: Identity) {
    && |id.pair.ns| == 64 && (forall i :: 0 <= i < 64 ==> HexDigit(id.pair.ns[i]))
    && 5 <= |id.pair.key| <= 128
    && |id.owner| <= 128
  }

  /** A namespace is 64 lower-case hex digits, a key has room for its group, and neither it nor the owner is
      longer than 128 bytes. */
  lemma WellFormedIs(id: Identity)
    ensures WellFormed(id) <==>
      && |id.pair.ns| == 64 && (forall i :: 0 <= i < |id.pair.ns| ==> id.pair.ns[i] in "0123456789abcdef")
      && 4 < |id.pair.key| < 129 && |id.owner| < 129
  {
    forall c: char ensures HexDigit(c) <==> c in "0123456789abcdef" {
      HexDigitIs(c);
    }
  }

  lemma HexDigitIs(c: char)
    ensures HexDigit(c) <==> c in "0123456789abcdef"
  {
    var digits := "0123456789abcdef";
    assert digits[0] == '0' && digits[1] == '1' && digits[2] == '2' && digits[3] == '3' && digits[4] == '4';
    assert digits[5] == '5' && digits[6] == '6' && digits[7] == '7' && digits[8] == '8' && digits[9] == '9';
    assert digits[10] == 'a' && digits[11] == 'b' && digits[12] == 'c' && digits[13] == 'd' && digits[14] == 'e';
    assert digits[15] == 'f';
  }

  // A reservation the remote coordinator is prepared to look at.
  predicate Known(cfg: Config, id: Identity) {
    WellFormed(id) && GroupOf(id.pair.key) < |cfg.sizeByGroup|
  }

  function Sizes(cfg: Config, id: Identity): seq<nat> {
    if Known(cfg, id) then cfg.sizeByGroup[GroupOf(id.pair.key)] else []
  }

  /** A well-formed request is looked at exactly if the number its key ends in is one of the groups, and the
      sizes are then those of that group. */
  lemma KeyNamesSizes(cfg: Config, id: Identity, prefix: seq<Byte>, a: Byte, b: Byte, c: Byte, d: Byte)
    requires id.pair.key == prefix + [a, b, c, d] && WellFormed(id)
    ensures
      var group := a * 16777216 + b * 65536 + c * 256 + d;
      && (Known(cfg, id) <==> group < |cfg.sizeByGroup|)
      && (group < |cfg.sizeByGroup| ==> Sizes(cfg, id) == cfg.sizeByGroup[group])
  {
    GroupNamed(prefix, a, b, c, d);
  }

  function Charge(cfg: Config, id: Identity): nat { MaxOf(Sizes(cfg, id)) }

  /** The coordinator's own fields. */
  datatype Coord = Coord(
    tickets: map<Token, Ticket>,
    identities: map<Identity, Token>,
    valid: map<Token, real>,      // instant up to which a ticket's leases are proved
    pending: set<Identity>,       // credits taken before any call to a rank
    retiring: set<Token>,
    invalid: set<Pair>,           // vetoes
    acked: set<Pair>,             // vetoes every rank has acknowledged
    bytes: int,
    retry: seq<Entry>,            // bounded cleanup replay log
    lost: bool,                   // a receipt fell out of the replay log
    closed: bool)

  function Empty(): Coord {
    Coord(map[], map[], map[], {}, {}, {}, {}, 0, [], false, false)
  }

  // ---- critical sections ------------------------------------------------------

  predicate Drained(c: Coord, pair: Pair) {
    && (forall t :: t in c.tickets ==> c.tickets[t].pair != pair)
    && (forall id :: id in c.pending ==> id.pair != pair)
  }

  function ClearVeto(c: Coord, pair: Pair): Coord {
    if pair in c.acked && Drained(c, pair)
    then c.(invalid := c.invalid - {pair}, acked := c.acked - {pair})
    else c
  }

  datatype Found = Refused | Existing(ticket: Ticket) | Absent

  function Lookup(c: Coord, id: Identity): Found {
    if c.closed || id.pair in c.invalid then Refused
    else if id !in c.identities then Absent
    else if c.identities[id] in c.retiring then Refused
    else if c.identities[id] in c.tickets then Existing(c.tickets[c.identities[id]])
    else Absent
  }

  predicate AdmitOk(cfg: Config, c: Coord, id: Identity) {
    && !c.closed && id.pair !in c.invalid
    && id !in c.pending
    && |c.tickets| + |c.pending| < cfg.maxKeys
    && c.bytes + Charge(cfg, id) <= cfg.maxBytes
  }

  function Admit(cfg: Config, c: Coord, id: Identity): Coord {
    if AdmitOk(cfg, c, id)
    then c.(pending := c.pending + {id}, bytes := c.bytes + Charge(cfg, id))
    else c
  }

  predicate CommitOk(c: Coord, pair: Pair, complete: bool, now: real, until: real) {
    complete && !c.closed && pair !in c.invalid && now < until
  }

  function Commit(c: Coord, t: Ticket, until: real): Coord {
    c.(tickets := c.tickets[t.token := t], identities := c.identities[t.Id() := t.token],
       valid := c.valid[t.token := until], pending := c.pending - {t.Id()})
  }

  function Abandon(cfg: Config, c: Coord, id: Identity): Coord {
    ClearVeto(c.(pending := c.pending - {id}, bytes := c.bytes - Charge(cfg, id)), id.pair)
  }

  function Retire(c: Coord, t: Token): Coord {
    if t in c.tickets
    then c.(retiring := c.retiring + {t}, valid := c.valid - {t})
    else c
  }

  function Drop(c: Coord, t: Token): Coord {
    if t !in c.tickets then c else
      var k := c.tickets[t];
      ClearVeto(c.(tickets := c.tickets - {t}, identities := c.identities - {k.Id()},
                   retiring := c.retiring - {t}, bytes := c.bytes - MaxOf(k.sizes)), k.pair)
  }

  predicate RaiseOk(cfg: Config, c: Coord, pair: Pair) {
    pair in c.invalid || |c.invalid| < cfg.maxKeys
  }

  function Raise(cfg: Config, c: Coord, pair: Pair): Coord {
    if RaiseOk(cfg, c, pair) then c.(invalid := c.invalid + {pair}) else c.(closed := true)
  }

  function Acknowledge(c: Coord, pair: Pair): Coord {
    ClearVeto(c.(acked := c.acked + {pair}), pair)
  }

  predicate RenewOk(c: Coord, t: Ticket) {
    && !c.closed && t.token in c.tickets && c.tickets[t.token] == t
    && t.token !in c.retiring && t.pair !in c.invalid
  }

  // Inside the window already proved no rank is asked again.
  predicate RenewCached(c: Coord, t: Ticket, now: real) {
    now < (if t.token in c.valid then c.valid[t.token] else 0.0)
  }

  predicate RenewCommitOk(c: Coord, t: Ticket, now: real, until: real) {
    && !c.closed && t.token in c.tickets && t.token !in c.retiring && t.pair !in c.invalid
    && now < until
  }

  function RenewCommit(c: Coord, t: Ticket, now: real, until: real): Coord {
    if RenewCommitOk(c, t, now, until) then c.(valid := c.valid[t.token := until]) else c
  }

  // The second look at an existing ticket after its renewal succeeded.
  predicate RecheckOk(c: Coord, id: Identity, t: Ticket) {
    && id in c.identities && c.identities[id] == t.token
    && t.token !in c.retiring && id.pair !in c.invalid && !c.closed
  }

  function Replay(cfg: Config, c: Coord, e: Entry): Coord
    requires 0 < cfg.retryCap
  {
    if e in c.retry then c
    else if |c.retry| < cfg.retryCap then c.(retry := c.retry + [e])
    else c.(retry := c.retry[|c.retry| - cfg.retryCap + 1..] + [e], lost := true, closed := true)
  }

  // The instant up to which a ticket may be used, if it may be used at all.
  function Deadline(c: Coord, t: Ticket): Option<real> {
    if c.closed || t.token in c.retiring || t.pair in c.invalid
       || t.token !in c.tickets || c.tickets[t.token] != t
    then None
    else if t.token in c.valid then Some(c.valid[t.token]) else None
  }

  // Tickets and identities are in one-to-one correspondence.
  ghost predicate Paired(c: Coord) {
    && (forall t :: t in c.tickets ==> c.tickets[t].Id() in c.identities && c.identities[c.tickets[t].Id()] == t)
    && (forall id :: id in c.identities ==>
          c.identities[id] in c.tickets && c.tickets[c.identities[id]].Id() == id)
  }
}
