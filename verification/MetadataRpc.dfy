/** The idempotency table of a rank's metadata server: request ids, receipts and the handlers
    that race for them. */
module MetadataRpc {
  import opened Basics
  import opened Coordination

  type RequestId = string

  // What a request id stands for; a repeat has to agree on all of it.
  datatype Signature = Read(pair: Pair, owner: seq<Byte>) | Write(pair: Pair, owner: seq<Byte>, size: nat)

  datatype Receipt = Receipt(id: RequestId, signature: Signature, lease: Option<Lease>, expiry: real)

  datatype Table = Table(receipts: seq<Receipt>, pending: map<RequestId, Signature>)

  // What `_idempotent` tells its caller: a result, ownership of the computation, a parameter
  // mismatch, no capacity, or to wait for the owner.
  datatype Verdict = Cached(lease: Option<Lease>) | Own | Mismatch | Full | InFlight

  // ---- the receipts, oldest first -----------------------------------------------

  function Purge(s: seq<Receipt>, now: real): seq<Receipt> {
    if s == [] || s[0].expiry > now then s else Purge(s[1..], now)
  }

  function Find(s: seq<Receipt>, id: RequestId): (r: Option<Receipt>)
    ensures r.Some? ==> r.value in s && r.value.id == id
    ensures r.None? ==> forall x :: x in s ==> x.id != id
  {
    if s == [] then None else if s[0].id == id then Some(s[0]) else Find(s[1..], id)
  }

  function Without(s: seq<Receipt>, id: RequestId): seq<Receipt> {
    if s == [] then [] else if s[0].id == id then s[1..] else [s[0]] + Without(s[1..], id)
  }

  // An ordered dictionary: an id that is present keeps its place.
  function Record(s: seq<Receipt>, r: Receipt): seq<Receipt> {
    if s == [] then [r] else if s[0].id == r.id then [r] + s[1..] else [s[0]] + Record(s[1..], r)
  }

  ghost predicate Ordered(s: seq<Receipt>) {
    forall i, j :: 0 <= i < j < |s| ==> s[i].expiry <= s[j].expiry && s[i].id != s[j].id
  }

  lemma OrderedRest(s: seq<Receipt>)
    requires Ordered(s) && s != []
    ensures Ordered(s[1..]) && s == [s[0]] + s[1..]
    ensures forall r :: r in s[1..] ==> s[0].expiry <= r.expiry && s[0].id != r.id
  {
  }

  lemma OrderedMore(x: Receipt, s: seq<Receipt>)
    requires Ordered(s) && forall r :: r in s ==> x.expiry <= r.expiry && x.id != r.id
    ensures Ordered([x] + s)
  {
    forall i, j | 0 <= i < j < |[x] + s|
      ensures ([x] + s)[i].expiry <= ([x] + s)[j].expiry && ([x] + s)[i].id != ([x] + s)[j].id
    {
      assert ([x] + s)[j] == s[j - 1] && s[j - 1] in s;
      if i > 0 { assert ([x] + s)[i] == s[i - 1]; }
    }
  }

  /** The loop that stops at the first live receipt removes exactly the expired ones. */
  lemma {:induction false} PurgeExact(s: seq<Receipt>, now: real)
    requires Ordered(s)
    ensures Ordered(Purge(s, now)) && |Purge(s, now)| <= |s|
    ensures forall r :: r in Purge(s, now) <==> r in s && r.expiry > now
  {
    hide Ordered;
    if s != [] {
      OrderedRest(s);
      if s[0].expiry <= now {
        PurgeExact(s[1..], now);
      }
    }
  }

  lemma {:induction false} WithoutExact(s: seq<Receipt>, id: RequestId)
    requires Ordered(s)
    ensures Ordered(Without(s, id)) && |Without(s, id)| <= |s|
    ensures forall r :: r in Without(s, id) <==> r in s && r.id != id
  {
    hide Ordered;
    if s != [] {
      OrderedRest(s);
      if s[0].id != id {
        WithoutExact(s[1..], id);
        OrderedMore(s[0], Without(s[1..], id));
      }
    }
  }

  lemma {:induction false} RecordNew(s: seq<Receipt>, r: Receipt)
    requires forall x :: x in s ==> x.id != r.id
    ensures Record(s, r) == s + [r]
  {
    if s != [] {
      RecordNew(s[1..], r);
      assert s == [s[0]] + s[1..];
    }
  }

  lemma {:induction false} FindOnly(s: seq<Receipt>, r: Receipt)
    requires Ordered(s) && r in s
    ensures Find(s, r.id) == Some(r)
  {
    var i :| 0 <= i < |s| && s[i] == r;
    if s[0] != r {
      assert s[1..][i - 1] == r && s[0].id != r.id;
      FindOnly(s[1..], r);
    }
  }

  // ---- the critical sections ------------------------------------------------------

  // `_idempotent`, one turn of its loop: the clock is read twice.
  function Try(cap: nat, t: Table, id: RequestId, sig: Signature, now: real, later: real): (Table, Verdict) {
    var live := Purge(t.receipts, now);
    var hit := Find(live, id);
    if hit.Some? && hit.value.expiry > later then
      (t.(receipts := live), if hit.value.signature == sig then Cached(hit.value.lease) else Mismatch)
    else
      var rest := t.(receipts := Without(live, id));
      if id in t.pending then (rest, if t.pending[id] == sig then InFlight else Mismatch)
      else if |t.pending| + |rest.receipts| >= cap then (rest, Full)
      else (rest.(pending := t.pending[id := sig]), Own)
  }

  function Remembered(t: Table, id: RequestId, sig: Signature, lease: Option<Lease>, expiry: real): Table {
    Table(Record(t.receipts, Receipt(id, sig, lease, expiry)), t.pending - {id})
  }

  function Forgotten(t: Table, id: RequestId): Table {
    t.(pending := t.pending - {id})
  }

  // What a reservation handler answers at once: a lease or none, a refusal of the request, or a
  // request to come again.
  datatype Response = Granted(lease: Option<Lease>) | BadRequest | Busy

  // A recorded lease is answered again only while its store still honours it.
  function Replay(lease: Option<Lease>, valid: Lease -> bool): Option<Lease> {
    if lease.Some? && !valid(lease.value) then None else lease
  }

  // The first part of `_rpc_reserve_read` and `_rpc_reserve_write`: the answer to a repeat, or None if
  // the handler has to compute one or to wait. An absent object is not read, whatever is recorded.
  function Respond(cap: nat, t: Table, id: RequestId, sig: Signature, now: real, later: real,
                   durable: bool, valid: Lease -> bool): (Table, Option<Response>)
  {
    if sig.Read? && !durable then (t, Some(Granted(None))) else
      var (u, v) := Try(cap, t, id, sig, now, later);
      match v
      case Cached(lease) => (u, Some(Granted(Replay(lease, valid))))
      case Mismatch => (u, Some(BadRequest))
      case Full => (u, Some(Busy))
      case _ => (u, None)
  }

  class MetadataServer {
    const cap: nat
    const leaseSeconds: real
    var idem: seq<Receipt>
    var pending: map<RequestId, Signature>

    function Contents(): Table
      reads this
    {
      Table(idem, pending)
    }

    constructor (cap: nat, leaseSeconds: real)
      ensures this.cap == cap && this.leaseSeconds == leaseSeconds && Contents() == Table([], map[])
    {
      this.cap, this.leaseSeconds := cap, leaseSeconds;
      idem, pending := [], map[];
    }

    method Idempotent(id: RequestId, sig: Signature, now: real, later: real) returns (v: Verdict)
      modifies this
      ensures (Contents(), v) == Try(cap, old(Contents()), id, sig, now, later)
    {
      while idem != []
        invariant Purge(idem, now) == Purge(old(idem), now) && pending == old(pending)
        decreases |idem|
      {
        if idem[0].expiry > now {
          break;
        }
        idem := idem[1..];
      }
      var hit := Find(idem, id);
      if hit.Some? && hit.value.expiry > later {
        return if hit.value.signature == sig then Cached(hit.value.lease) else Mismatch;
      }
      idem := Without(idem, id);
      if id !in pending {
        if |pending| + |idem| >= cap {
          return Full;
        }
        pending := pending[id := sig];
        return Own;
      }
      return if pending[id] == sig then InFlight else Mismatch;
    }

    method Reserve(sig: Signature, id: RequestId, now: real, later: real, durable: bool, valid: Lease -> bool)
      returns (response: Option<Response>)
      modifies this
      ensures (Contents(), response) == Respond(cap, old(Contents()), id, sig, now, later, durable, valid)
    {
      if sig.Read? && !durable {
        return Some(Granted(None));
      }
      var v := Idempotent(id, sig, now, later);
      match v
      case Cached(lease) =>
        if lease.Some? && !valid(lease.value) {
          return Some(Granted(None));
        }
        return Some(Granted(lease));
      case Mismatch => return Some(BadRequest);
      case Full => return Some(Busy);
      case _ => return None;
    }

    method Remember(id: RequestId, sig: Signature, lease: Option<Lease>, now: real)
      modifies this
      ensures Contents() == Remembered(old(Contents()), id, sig, lease, now + leaseSeconds)
    {
      idem := Record(idem, Receipt(id, sig, lease, now + leaseSeconds));
      pending := pending - {id};
    }

    method Forget(id: RequestId)
      modifies this
      ensures Contents() == Forgotten(old(Contents()), id)
    {
      pending := pending - {id};
    }
  }

  // ---- handlers racing for the table ----------------------------------------------

  type Handler = nat

  datatype Task = Task(id: RequestId, signature: Signature)

  // `busy`: the handlers that own a computation.
  datatype World = World(t: Table, now: real, busy: map<Handler, Task>)

  datatype Act =
    | Tick(d: real)
    | Ask(h: Handler, id: RequestId, signature: Signature, d: real)   // `d` passes between the clock reads
    | Answer(h: Handler, lease: Option<Lease>)
    | Fail(h: Handler)

  predicate Enabled(w: World, a: Act) {
    match a
    case Tick(d) => 0.0 <= d
    case Ask(h, _, _, d) => h !in w.busy && 0.0 <= d
    case Answer(h, _) => h in w.busy
    case Fail(h) => h in w.busy
  }

  function Asked(cap: nat, w: World, id: RequestId, sig: Signature, d: real): (Table, Verdict) {
    Try(cap, w.t, id, sig, w.now, w.now + d)
  }

  function Apply(cap: nat, leaseSeconds: real, w: World, a: Act): World
    requires Enabled(w, a)
  {
    match a
    case Tick(d) => w.(now := w.now + d)
    case Ask(h, id, sig, d) =>
      var (t, v) := Asked(cap, w, id, sig, d);
      World(t, w.now + d, if v.Own? then w.busy[h := Task(id, sig)] else w.busy)
    case Answer(h, lease) =>
      World(Remembered(w.t, w.busy[h].id, w.busy[h].signature, lease, w.now + leaseSeconds), w.now, w.busy - {h})
    case Fail(h) => World(Forgotten(w.t, w.busy[h].id), w.now, w.busy - {h})
  }

  ghost predicate TableOk(cap: nat, leaseSeconds: real, w: World) {
    && Ordered(w.t.receipts)
    && (forall r :: r in w.t.receipts ==> r.id !in w.t.pending && r.expiry <= w.now + leaseSeconds)
    && |w.t.pending| + |w.t.receipts| <= cap
  }

  // Pending ids and computing handlers correspond one to one.
  ghost predicate OwnersOk(w: World) {
    && (forall h :: h in w.busy ==> w.busy[h].id in w.t.pending && w.t.pending[w.busy[h].id] == w.busy[h].signature)
    && (forall g, h :: g in w.busy && h in w.busy && w.busy[g].id == w.busy[h].id ==> g == h)
    && (forall id :: id in w.t.pending ==> Computing(w.busy, id))
  }

  ghost predicate Computing(busy: map<Handler, Task>, id: RequestId) {
    exists h :: h in busy && busy[h].id == id
  }

  ghost predicate Inv(cap: nat, leaseSeconds: real, w: World) {
    TableOk(cap, leaseSeconds, w) && OwnersOk(w)
  }

  lemma AskTable(cap: nat, leaseSeconds: real, w: World, id: RequestId, sig: Signature, d: real)
    requires TableOk(cap, leaseSeconds, w) && 0.0 <= d
    ensures
      var (t, v) := Asked(cap, w, id, sig, d);
      && Ordered(t.receipts) && |t.pending| + |t.receipts| <= cap
      && (forall r :: r in t.receipts ==> r in w.t.receipts && r.expiry > w.now && r.id !in t.pending)
      && t.pending == (if v.Own? then w.t.pending[id := sig] else w.t.pending)
      && (v.Own? ==> id !in w.t.pending)
  {
    hide Ordered, Purge, Without;
    PurgeExact(w.t.receipts, w.now);
    var live := Purge(w.t.receipts, w.now);
    WithoutExact(live, id);
  }

  // A handler asks; if it gets the computation its id becomes pending.
  lemma AskOwners(w: World, v: World, h: Handler, task: Task, own: bool)
    requires OwnersOk(w) && h !in w.busy && (own ==> task.id !in w.t.pending)
    requires v.t.pending == if own then w.t.pending[task.id := task.signature] else w.t.pending
    requires v.busy == if own then w.busy[h := task] else w.busy
    ensures OwnersOk(v)
  {
    forall id | id in v.t.pending ensures Computing(v.busy, id) {
      if id in w.t.pending {
        var g :| g in w.busy && w.busy[g].id == id;
        assert v.busy[g] == w.busy[g];
      } else {
        assert v.busy[h].id == id;
      }
    }
  }

  lemma AskKeeps(cap: nat, leaseSeconds: real, w: World, a: Act)
    requires Inv(cap, leaseSeconds, w) && Enabled(w, a) && a.Ask?
    ensures Inv(cap, leaseSeconds, Apply(cap, leaseSeconds, w, a))
  {
    hide Try, Ordered, OwnersOk;
    AskTable(cap, leaseSeconds, w, a.id, a.signature, a.d);
    var v := Apply(cap, leaseSeconds, w, a);
    AskOwners(w, v, a.h, Task(a.id, a.signature), Asked(cap, w, a.id, a.signature, a.d).1.Own?);
  }

  // A computation ends; its id is no longer pending.
  lemma EndOwners(w: World, v: World, h: Handler)
    requires OwnersOk(w) && h in w.busy
    requires v.t.pending == w.t.pending - {w.busy[h].id} && v.busy == w.busy - {h}
    ensures OwnersOk(v) && |v.t.pending| == |w.t.pending| - 1
  {
    assert v.t.pending.Keys == w.t.pending.Keys - {w.busy[h].id};
    forall id | id in v.t.pending ensures Computing(v.busy, id) {
      var g :| g in w.busy && w.busy[g].id == id;
      assert g != h && v.busy[g] == w.busy[g];
    }
  }

  lemma AnswerTable(cap: nat, leaseSeconds: real, w: World, v: World, r: Receipt)
    requires TableOk(cap, leaseSeconds, w) && r.id in w.t.pending && r.expiry == w.now + leaseSeconds && v.now == w.now
    requires v.t.receipts == w.t.receipts + [r] && v.t.pending == w.t.pending - {r.id}
    requires |v.t.pending| == |w.t.pending| - 1
    ensures TableOk(cap, leaseSeconds, v)
  {
  }

  lemma EndKeeps(cap: nat, leaseSeconds: real, w: World, a: Act)
    requires Inv(cap, leaseSeconds, w) && Enabled(w, a) && (a.Answer? || a.Fail?)
    ensures Inv(cap, leaseSeconds, Apply(cap, leaseSeconds, w, a))
  {
    hide OwnersOk, TableOk, Record;
    var v := Apply(cap, leaseSeconds, w, a);
    EndOwners(w, v, a.h);
    if a.Answer? {
      AnswerIsNew(w, a.h);
      var task := w.busy[a.h];
      var r := Receipt(task.id, task.signature, a.lease, w.now + leaseSeconds);
      NoReceipt(cap, leaseSeconds, w, r.id);
      RecordNew(w.t.receipts, r);
      AnswerTable(cap, leaseSeconds, w, v, r);
    } else {
      FailTable(cap, leaseSeconds, w, v);
    }
  }

  lemma NoReceipt(cap: nat, leaseSeconds: real, w: World, id: RequestId)
    requires TableOk(cap, leaseSeconds, w) && id in w.t.pending
    ensures forall x :: x in w.t.receipts ==> x.id != id
  {
  }

  lemma FailTable(cap: nat, leaseSeconds: real, w: World, v: World)
    requires TableOk(cap, leaseSeconds, w) && v.now == w.now && v.t.receipts == w.t.receipts
    requires v.t.pending.Keys <= w.t.pending.Keys && |v.t.pending| <= |w.t.pending|
    ensures TableOk(cap, leaseSeconds, v)
  {
  }

  lemma AnswerIsNew(w: World, h: Handler)
    requires OwnersOk(w) && h in w.busy
    ensures w.busy[h].id in w.t.pending
  {
  }

  lemma StepKeeps(cap: nat, leaseSeconds: real, w: World, a: Act)
    requires Inv(cap, leaseSeconds, w) && Enabled(w, a)
    ensures Inv(cap, leaseSeconds, Apply(cap, leaseSeconds, w, a))
  {
    if a.Ask? {
      AskKeeps(cap, leaseSeconds, w, a);
    } else if a.Answer? || a.Fail? {
      EndKeeps(cap, leaseSeconds, w, a);
    }
  }

  ghost predicate Run(cap: nat, leaseSeconds: real, ws: seq<World>, acts: seq<Act>) {
    && |ws| == |acts| + 1 && ws[0] == World(Table([], map[]), ws[0].now, map[])
    && forall i :: 0 <= i < |acts| ==> Enabled(ws[i], acts[i]) && ws[i + 1] == Apply(cap, leaseSeconds, ws[i], acts[i])
  }

  lemma {:induction false} InvAlong(cap: nat, leaseSeconds: real, ws: seq<World>, acts: seq<Act>, i: nat)
    requires Run(cap, leaseSeconds, ws, acts) && i <= |acts|
    ensures Inv(cap, leaseSeconds, ws[i])
  {
    if i > 0 {
      InvAlong(cap, leaseSeconds, ws, acts, i - 1);
      hide Inv, Apply, Enabled;
      StepKeeps(cap, leaseSeconds, ws[i - 1], acts[i - 1]);
    }
  }

  /** At most one handler computes for a request id, and the computations in progress and the
      receipts together stay within the capacity. */
  lemma OneOwner(cap: nat, leaseSeconds: real, ws: seq<World>, acts: seq<Act>, i: nat, g: Handler, h: Handler)
    requires Run(cap, leaseSeconds, ws, acts) && i <= |acts|
    ensures |ws[i].t.pending| + |ws[i].t.receipts| <= cap
    ensures g in ws[i].busy && h in ws[i].busy && ws[i].busy[g].id == ws[i].busy[h].id ==> g == h
    ensures g in ws[i].busy ==> forall r :: r in ws[i].t.receipts ==> r.id != ws[i].busy[g].id
  {
    InvAlong(cap, leaseSeconds, ws, acts, i);
  }

  lemma AskReceipt(cap: nat, leaseSeconds: real, w: World, id: RequestId, sig: Signature, d: real, r: Receipt)
    requires TableOk(cap, leaseSeconds, w) && 0.0 <= d && r in w.t.receipts && w.now + d < r.expiry
    ensures r in Asked(cap, w, id, sig, d).0.receipts
    ensures id == r.id ==> Asked(cap, w, id, sig, d).1 == if sig == r.signature then Cached(r.lease) else Mismatch
  {
    hide Ordered, Purge, Without;
    PurgeExact(w.t.receipts, w.now);
    var live := Purge(w.t.receipts, w.now);
    FindOnly(live, r);
    WithoutExact(live, id);
  }

  lemma AnswerReceipts(cap: nat, leaseSeconds: real, w: World, h: Handler, lease: Option<Lease>)
    requires Inv(cap, leaseSeconds, w) && h in w.busy
    ensures
      var task := w.busy[h];
      var r := Receipt(task.id, task.signature, lease, w.now + leaseSeconds);
      Apply(cap, leaseSeconds, w, Answer(h, lease)).t.receipts == w.t.receipts + [r]
  {
    hide Ordered;
    var task := w.busy[h];
    RecordNew(w.t.receipts, Receipt(task.id, task.signature, lease, w.now + leaseSeconds));
  }

  // A step removes a receipt only after it has expired.
  lemma ReceiptStep(cap: nat, leaseSeconds: real, w: World, a: Act, r: Receipt)
    requires Inv(cap, leaseSeconds, w) && Enabled(w, a) && r in w.t.receipts
    ensures Apply(cap, leaseSeconds, w, a).now < r.expiry ==> r in Apply(cap, leaseSeconds, w, a).t.receipts
  {
    hide Ordered, Record, OwnersOk, Try;
    if a.Ask? {
      if w.now + a.d < r.expiry { AskReceipt(cap, leaseSeconds, w, a.id, a.signature, a.d, r); }
    } else if a.Answer? {
      AnswerReceipts(cap, leaseSeconds, w, a.h, a.lease);
    }
  }

  lemma Later(cap: nat, leaseSeconds: real, w: World, a: Act)
    requires Enabled(w, a)
    ensures w.now <= Apply(cap, leaseSeconds, w, a).now
  {
  }

  /** A live receipt is never evicted, whatever other requests arrive. */
  lemma {:induction false} ReceiptKept(cap: nat, leaseSeconds: real, ws: seq<World>, acts: seq<Act>, i: nat, j: nat,
                                       r: Receipt)
    requires Run(cap, leaseSeconds, ws, acts) && i <= j <= |acts| && r in ws[i].t.receipts
    ensures ws[i].now <= ws[j].now
    ensures ws[j].now < r.expiry ==> r in ws[j].t.receipts
    decreases j
  {
    hide Inv, Apply, Enabled;
    if i < j {
      ReceiptKept(cap, leaseSeconds, ws, acts, i, j - 1, r);
      InvAlong(cap, leaseSeconds, ws, acts, j - 1);
      Later(cap, leaseSeconds, ws[j - 1], acts[j - 1]);
      if r in ws[j - 1].t.receipts {
        ReceiptStep(cap, leaseSeconds, ws[j - 1], acts[j - 1], r);
      }
    }
  }

  /** Once a handler has answered a request, every repeat of it within the lease gets that very
      answer, and a request that reuses the id with other parameters is turned away. */
  lemma RepeatGetsSame(cap: nat, leaseSeconds: real, ws: seq<World>, acts: seq<Act>, i: nat, j: nat)
    requires Run(cap, leaseSeconds, ws, acts) && i < j < |acts| && acts[i].Answer? && acts[j].Ask?
    requires acts[j].id == ws[i].busy[acts[i].h].id
    requires ws[j].now + acts[j].d < ws[i].now + leaseSeconds
    ensures
      var task := ws[i].busy[acts[i].h];
      Asked(cap, ws[j], acts[j].id, acts[j].signature, acts[j].d).1
        == if acts[j].signature == task.signature then Cached(acts[i].lease) else Mismatch
  {
    hide Apply, Asked, OwnersOk, TableOk;
    var task := ws[i].busy[acts[i].h];
    var r := Receipt(task.id, task.signature, acts[i].lease, ws[i].now + leaseSeconds);
    InvAlong(cap, leaseSeconds, ws, acts, i);
    AnswerReceipts(cap, leaseSeconds, ws[i], acts[i].h, acts[i].lease);
    ReceiptKept(cap, leaseSeconds, ws, acts, i + 1, j, r);
    InvAlong(cap, leaseSeconds, ws, acts, j);
    AskReceipt(cap, leaseSeconds, ws[j], acts[j].id, acts[j].signature, acts[j].d, r);
  }

  /** So a repeat with the same parameters is answered with the recorded lease, as long as its store honours
      it, or with none: never with another lease; a reuse with other parameters is refused. */
  lemma RepeatAnswered(cap: nat, leaseSeconds: real, ws: seq<World>, acts: seq<Act>, i: nat, j: nat,
                       durable: bool, valid: Lease -> bool)
    requires Run(cap, leaseSeconds, ws, acts) && i < j < |acts| && acts[i].Answer? && acts[j].Ask?
    requires acts[j].id == ws[i].busy[acts[i].h].id
    requires ws[j].now + acts[j].d < ws[i].now + leaseSeconds
    ensures
      var task, sig, lease := ws[i].busy[acts[i].h], acts[j].signature, acts[i].lease;
      var answer := Respond(cap, ws[j].t, acts[j].id, sig, ws[j].now, ws[j].now + acts[j].d, durable, valid).1;
      && (sig == task.signature && (sig.Write? || durable) && lease.Some? && valid(lease.value) ==>
            answer == Some(Granted(lease)))
      && (sig == task.signature && answer != Some(Granted(lease)) ==> answer == Some(Granted(None)))
      && (sig != task.signature ==> answer == Some(if sig.Read? && !durable then Granted(None) else BadRequest))
  {
    hide Run, Apply, Try;
    RepeatGetsSame(cap, leaseSeconds, ws, acts, i, j);
  }

  /** A second computation for an answered request id starts only after its receipt has expired. */
  lemma NoSecondGrant(cap: nat, leaseSeconds: real, ws: seq<World>, acts: seq<Act>, i: nat, j: nat)
    requires Run(cap, leaseSeconds, ws, acts) && i < j < |acts| && acts[i].Answer? && acts[j].Ask?
    requires acts[j].id == ws[i].busy[acts[i].h].id
    requires Asked(cap, ws[j], acts[j].id, acts[j].signature, acts[j].d).1.Own?
    ensures ws[i].now + leaseSeconds <= ws[j].now + acts[j].d
  {
    if ws[j].now + acts[j].d < ws[i].now + leaseSeconds {
      RepeatGetsSame(cap, leaseSeconds, ws, acts, i, j);
    }
  }

  // ---- an id without a receipt ------------------------------------------------------

  // The receipts that take room from this id: still alive, and another's.
  function Others(w: World, id: RequestId): set<Receipt> {
    set r | r in w.t.receipts && w.now < r.expiry && r.id != id
  }

  lemma {:induction false} DistinctSize(s: seq<Receipt>)
    requires Ordered(s)
    ensures |s| == |set r | r in s|
  {
    if s != [] {
      OrderedRest(s);
      DistinctSize(s[1..]);
      assert (set r | r in s) == {s[0]} + set r | r in s[1..];
    }
  }

  // As many computations are in progress as ids are pending.
  lemma {:induction false} BusySize(w: World)
    requires OwnersOk(w)
    ensures |w.busy| == |w.t.pending|
    decreases |w.busy|
  {
    if w.busy == map[] {
      assert w.t.pending == map[];
    } else {
      var h :| h in w.busy;
      var v := World(Forgotten(w.t, w.busy[h].id), w.now, w.busy - {h});
      EndOwners(w, v, h);
      assert v.busy.Keys == w.busy.Keys - {h};
      BusySize(v);
    }
  }

  lemma AskRoom(cap: nat, leaseSeconds: real, w: World, id: RequestId, sig: Signature, d: real)
    requires Inv(cap, leaseSeconds, w) && 0.0 <= d
    requires forall r :: r in w.t.receipts && r.id == id ==> r.expiry <= w.now + d
    ensures
      var v := Asked(cap, w, id, sig, d).1;
      if id in w.t.pending then v == (if w.t.pending[id] == sig then InFlight else Mismatch)
      else v == (if |w.t.pending| + |Others(w, id)| < cap then Own else Full)
  {
    hide Ordered, Purge, Without, OwnersOk;
    var live := Purge(w.t.receipts, w.now);
    PurgeExact(w.t.receipts, w.now);
    WithoutExact(live, id);
    DistinctSize(Without(live, id));
    assert (set r | r in Without(live, id)) == Others(w, id);
  }

  /** While a handler computes, a repeat with the same parameters waits for its result, and a request that
      reuses the id with other parameters is refused. */
  lemma RepeatWaits(cap: nat, leaseSeconds: real, ws: seq<World>, acts: seq<Act>, i: nat, h: Handler,
                    durable: bool, valid: Lease -> bool)
    requires Run(cap, leaseSeconds, ws, acts) && i < |acts| && acts[i].Ask?
    requires h in ws[i].busy && ws[i].busy[h].id == acts[i].id
    ensures
      var sig := acts[i].signature;
      var (t, answer) := Respond(cap, ws[i].t, acts[i].id, sig, ws[i].now, ws[i].now + acts[i].d, durable, valid);
      && Asked(cap, ws[i], acts[i].id, sig, acts[i].d).1 == (if sig == ws[i].busy[h].signature then InFlight else Mismatch)
      && t.pending == ws[i].t.pending
      && (if sig.Read? && !durable then answer == Some(Granted(None))
          else if sig == ws[i].busy[h].signature then answer == None
          else answer == Some(BadRequest))
  {
    hide Run, Try;
    EnabledAt(cap, leaseSeconds, ws, acts, i);
    InvAlong(cap, leaseSeconds, ws, acts, i);
    NoReceipt(cap, leaseSeconds, ws[i], acts[i].id);
    AskRoom(cap, leaseSeconds, ws[i], acts[i].id, acts[i].signature, acts[i].d);
    AskTable(cap, leaseSeconds, ws[i], acts[i].id, acts[i].signature, acts[i].d);
  }

  lemma EnabledAt(cap: nat, leaseSeconds: real, ws: seq<World>, acts: seq<Act>, i: nat)
    requires Run(cap, leaseSeconds, ws, acts) && i < |acts|
    ensures i < |ws| && Enabled(ws[i], acts[i])
  {
  }

  /** An id that nobody computes and that has no live receipt is the asker's to compute exactly if the
      computations in progress and the other live receipts leave room; otherwise it is told to come
      again. */
  lemma FreshOwns(cap: nat, leaseSeconds: real, ws: seq<World>, acts: seq<Act>, i: nat, durable: bool, valid: Lease -> bool)
    requires Run(cap, leaseSeconds, ws, acts) && i < |acts| && acts[i].Ask?
    requires forall h :: h in ws[i].busy ==> ws[i].busy[h].id != acts[i].id
    requires forall r :: r in ws[i].t.receipts && r.id == acts[i].id ==> r.expiry <= ws[i].now + acts[i].d
    ensures
      var sig, room := acts[i].signature, |ws[i].busy| + |Others(ws[i], acts[i].id)| < cap;
      var (t, answer) := Respond(cap, ws[i].t, acts[i].id, sig, ws[i].now, ws[i].now + acts[i].d, durable, valid);
      && Asked(cap, ws[i], acts[i].id, sig, acts[i].d).1 == (if room then Own else Full)
      && (if sig.Read? && !durable then t == ws[i].t && answer == Some(Granted(None))
          else if room then t.pending == ws[i].t.pending[acts[i].id := sig] && answer == None
          else t.pending == ws[i].t.pending && answer == Some(Busy))
  {
    hide Run, Try;
    EnabledAt(cap, leaseSeconds, ws, acts, i);
    InvAlong(cap, leaseSeconds, ws, acts, i);
    NotPending(ws[i], acts[i].id);
    BusySize(ws[i]);
    AskRoom(cap, leaseSeconds, ws[i], acts[i].id, acts[i].signature, acts[i].d);
    AskTable(cap, leaseSeconds, ws[i], acts[i].id, acts[i].signature, acts[i].d);
  }

  lemma NotPending(w: World, id: RequestId)
    requires OwnersOk(w) && forall h :: h in w.busy ==> w.busy[h].id != id
    ensures id !in w.t.pending
  {
  }
}
