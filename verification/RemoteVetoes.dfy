/** When a veto lifts, and what has to be kept apart so that it stands as long as an invalidation of its
    pair is in progress. */
module RemoteVetoes {
  import opened Basics
  import opened Coordination
  import opened RemoteProtocol
  import opened RemoteTheorems
  import opened RemoteOrder

  /** A veto lifts in a step exactly if the step ends a ticket, a reservation or an invalidation of the
      pair, nothing of the pair is left, and the pair is recorded as acknowledged, by the step
      itself or before it: no matter for which invalidation. */
  lemma VetoLiftsExactly(cfg: Config, w: World, a: Act, p: Pair)
    requires cfg.Valid() && Enabled(cfg, w, a) && p in w.c.invalid
    ensures
      var d := Apply(cfg, w, a).c;
      p !in d.invalid <==> Clears(w, a) == Some(p) && (p in w.c.acked || Acks(w, a, p)) && Drained(d, p)
  {
    hide Apply, Enabled, Drained;
    MarksStep(cfg, w, a, p);
    NotRaising(cfg, w, a, p);
  }

  lemma NotRaising(cfg: Config, w: World, a: Act, p: Pair)
    ensures Raising(cfg, w, a, p) ==> Clears(w, a) == None
  {
  }

  /** A record of an acknowledgement stays until the pair is next found drained, whether the pair is
      vetoed or not; then it lifts whatever veto stands, acknowledged or not. */
  lemma StaleAcknowledgement(cfg: Config, w: World, a: Act, p: Pair)
    requires cfg.Valid() && Enabled(cfg, w, a) && p in w.c.acked
    ensures
      var d := Apply(cfg, w, a).c;
      && (p in d.acked <==> !(Clears(w, a) == Some(p) && Drained(d, p)))
      && (p !in d.acked ==> p !in d.invalid)
  {
    hide Apply, Enabled, Drained;
    MarksStep(cfg, w, a, p);
    NotRaising(cfg, w, a, p);
  }

  // ---- one invalidation of the pair at a time ----------------------------------------------------------

  // An invalidation of the pair, on its own or for a store that failed.
  predicate Invalidating(op: Op, p: Pair) { (op.Vetoing? && op.pair == p) || Calls(op, p) }

  // Its veto has been raised.
  predicate Calls(op: Op, p: Pair) {
    GoalOf(op).Some? && GoalOf(op).value.Veto? && GoalOf(op).value.pair == p
  }

  predicate CallInvalidates(call: Call, p: Pair) {
    || (call.Quarantine? && call.pair == p)
    || (call.CompleteStore? && !call.durable && call.ticket.pair == p)
  }

  // No invalidation of the pair begins while another is in progress, nor while an earlier one is
  // recorded as acknowledged but its veto could not lift yet.
  ghost predicate Singly(ws: seq<World>, acts: seq<Act>, p: Pair)
    requires |ws| == |acts| + 1
  {
    forall i :: 0 <= i < |acts| && acts[i].Begin? ==> SinglyCall(ws[i], acts[i].call, p)
  }

  ghost predicate SinglyCall(w: World, call: Call, p: Pair) {
    CallInvalidates(call, p) ==> p !in w.c.acked && forall o :: o in w.ops ==> !Invalidating(w.ops[o], p)
  }

  ghost predicate SingleOk(w: World, p: Pair) {
    && (forall o1, o2 | o1 in w.ops && o2 in w.ops && o1 != o2 ::
          !(Invalidating(w.ops[o1], p) && Invalidating(w.ops[o2], p)))
    && (forall o :: o in w.ops && Invalidating(w.ops[o], p) ==> p !in w.c.acked)
    && (forall o :: o in w.ops && Calls(w.ops[o], p) ==> p in w.c.invalid)
    && (p in w.c.acked ==> p in w.c.invalid)
  }

  lemma NextInvalidating(cfg: Config, w: World, op: Op, d: Coord, next: Op, p: Pair)
    requires Next(cfg, w, op, d, next)
    ensures Invalidating(next, p) ==> Invalidating(op, p) && !op.Settled?
    ensures Calls(next, p) && !Calls(op, p) ==> p in d.invalid
  {
    hide CommitOk, RenewOk, RaiseOk, Rollbacks, Releases, Invalidations, RecheckOk, AdmitOk;
  }

  lemma ReplyInvalidating(op: Op, next: Op, p: Pair)
    requires Replies(op, next)
    ensures Invalidating(next, p) ==> Calls(op, p) && Calls(next, p) && !op.Settled?
  {
  }

  lemma BegunInvalidating(w: World, call: Call, op: Op, p: Pair)
    requires Begun(w, call, op)
    ensures Invalidating(op, p) ==> CallInvalidates(call, p) && !Calls(op, p)
  {
    hide Lookup;
  }

  // An invalidation in progress was in progress before, unless it has just begun.
  lemma InvalidatingStep(cfg: Config, w: World, a: Act, x: OpId, p: Pair)
    requires cfg.Valid() && Enabled(cfg, w, a) && x in Apply(cfg, w, a).ops && Invalidating(Apply(cfg, w, a).ops[x], p)
    ensures
      var v := Apply(cfg, w, a);
      if x in w.ops then
        && Invalidating(w.ops[x], p) && (Calls(v.ops[x], p) && !Calls(w.ops[x], p) ==> p in v.c.invalid)
        && !(a.Advance? && a.o == x && w.ops[x].Settled?)
      else a.Begin? && a.o == x && CallInvalidates(a.call, p) && !Calls(v.ops[x], p)
  {
    hide Apply, Next, Replies, Begun, Invalidating, Calls;
    var v := Apply(cfg, w, a);
    StepFollows(cfg, w, a, x);
    if x !in w.ops {
      CallBegins(cfg, w, x, a.call);
      BeginApplies(cfg, w, x, a.call);
      BegunInvalidating(w, a.call, v.ops[x], p);
    } else if Moved(cfg, w, a, x) {
      if a.step.Go? {
        NextInvalidating(cfg, w, w.ops[x], v.c, v.ops[x], p);
      } else {
        ReplyInvalidating(w.ops[x], v.ops[x], p);
        CallsIs(w.ops[x], p);
      }
    } else {
      NotOnTheSpot(cfg, w, a, x);
    }
  }

  lemma CallsIs(op: Op, p: Pair)
    ensures Calls(op, p) ==> Invalidating(op, p)
  {
  }

  lemma BeginApplies(cfg: Config, w: World, o: OpId, call: Call)
    requires cfg.Valid() && CallEnabled(w, o, call)
    ensures Apply(cfg, w, Begin(o, call)) == ApplyCall(cfg, w, o, call)
  {
  }

  // An operation that took a step has moved.
  lemma NotOnTheSpot(cfg: Config, w: World, a: Act, x: OpId)
    requires cfg.Valid() && Enabled(cfg, w, a) && x in w.ops && x in Apply(cfg, w, a).ops && !Moved(cfg, w, a, x)
    ensures !(a.Advance? && a.o == x)
  {
    hide ApplyEvent, ApplyCall, ApplyStep, ApplyGo, Replies, Next;
    if a.Advance? && a.o == x {
      if a.step.Go? {
        StepGo(cfg, w, x, w.ops[x], a.step.token);
        GoNext(cfg, w, x, w.ops[x], a.step.token);
      } else {
        ReplyFollows(cfg, w, x, w.ops[x], a.step);
      }
    }
  }

  lemma SingleStep(cfg: Config, w: World, a: Act, p: Pair)
    requires cfg.Valid() && Enabled(cfg, w, a) && SingleOk(w, p) && (a.Begin? ==> SinglyCall(w, a.call, p))
    ensures SingleOk(Apply(cfg, w, a), p)
  {
    hide Apply, Invalidating, Drained, Clears;
    var v := Apply(cfg, w, a);
    MarksStep(cfg, w, a, p);
    AckerIs(w, a, p);
    forall o1, o2 | o1 in v.ops && o2 in v.ops && o1 != o2
      ensures !(Invalidating(v.ops[o1], p) && Invalidating(v.ops[o2], p))
    {
      if Invalidating(v.ops[o1], p) && Invalidating(v.ops[o2], p) {
        InvalidatingStep(cfg, w, a, o1, p);
        InvalidatingStep(cfg, w, a, o2, p);
      }
    }
    forall o | o in v.ops && Invalidating(v.ops[o], p) ensures p !in v.c.acked {
      InvalidatingStep(cfg, w, a, o, p);
    }
    forall o | o in v.ops && Calls(v.ops[o], p) ensures p in v.c.invalid {
      CallsIs(v.ops[o], p);
      InvalidatingStep(cfg, w, a, o, p);
    }
  }

  lemma AckerIs(w: World, a: Act, p: Pair)
    ensures Acks(w, a, p) ==> a.Advance? && a.o in w.ops && Calls(w.ops[a.o], p) && Invalidating(w.ops[a.o], p)
    ensures Acks(w, a, p) ==> w.ops[a.o].Settled?
  {
  }

  lemma InitSingle(p: Pair)
    ensures SingleOk(Init(), p)
  {
  }

  lemma {:induction false} SingleAlong(cfg: Config, ws: seq<World>, acts: seq<Act>, i: nat, p: Pair)
    requires cfg.Valid() && Run(cfg, ws, acts) && ws[0] == Init() && i <= |acts| && Singly(ws, acts, p)
    ensures SingleOk(ws[i], p)
  {
    hide Apply, Enabled, SingleOk, SinglyCall;
    InitSingle(p);
    if i > 0 {
      SingleAlong(cfg, ws, acts, i - 1, p);
      StepOf(cfg, ws, acts, i - 1);
      assert acts[i - 1].Begin? ==> SinglyCall(ws[i - 1], acts[i - 1].call, p);
      SingleStep(cfg, ws[i - 1], acts[i - 1], p);
    }
  }

  /** If invalidations of a pair come one at a time, each begun only when no earlier acknowledgement is
      still recorded, the veto stands from the moment it is raised until the invalidation ends, and
      only vetoed pairs are recorded as acknowledged. */
  lemma VetoStands(cfg: Config, ws: seq<World>, acts: seq<Act>, i: nat, p: Pair)
    requires cfg.Valid() && Run(cfg, ws, acts) && ws[0] == Init() && i <= |acts| && Singly(ws, acts, p)
    ensures forall o :: o in ws[i].ops && Calls(ws[i].ops[o], p) ==> p in ws[i].c.invalid
    ensures p in ws[i].c.acked ==> p in ws[i].c.invalid
  {
    SingleAlong(cfg, ws, acts, i, p);
  }

  // No invalidation of the pair is past its veto.
  ghost predicate Undisputed(w: World, p: Pair) { forall o :: o in w.ops ==> !Calls(w.ops[o], p) }

  // ---- what a lifted veto says ----------------------------------------------------------------------------

  // An invalidation of the pair ended, acknowledged by every rank, and its record stood ever since.
  ghost predicate AckedAt(ws: seq<World>, acts: seq<Act>, k: nat, i: nat, p: Pair) {
    && k <= i < |ws| && k < |acts| && Acks(ws[k], acts[k], p)
    && forall n :: k < n <= i ==> p in ws[n].c.acked
  }

  lemma {:induction false} AckedSince(cfg: Config, ws: seq<World>, acts: seq<Act>, i: nat, p: Pair) returns (k: nat)
    requires cfg.Valid() && Run(cfg, ws, acts) && ws[0] == Init() && i <= |acts| && p in ws[i].c.acked
    ensures k < i && AckedAt(ws, acts, k, i, p)
  {
    hide Apply, Enabled, Acks;
    StepOf(cfg, ws, acts, i - 1);
    MarksStep(cfg, ws[i - 1], acts[i - 1], p);
    if Acks(ws[i - 1], acts[i - 1], p) {
      k := i - 1;
    } else {
      k := AckedSince(cfg, ws, acts, i - 1, p);
    }
  }

  /** A veto lifts only when nothing of the pair is left, and only after every rank has acknowledged an
      invalidation of it whose record stood until then. */
  lemma VetoLifts(cfg: Config, ws: seq<World>, acts: seq<Act>, i: nat, p: Pair) returns (k: nat)
    requires cfg.Valid() && Run(cfg, ws, acts) && ws[0] == Init() && i < |acts|
    requires p in ws[i].c.invalid && p !in ws[i + 1].c.invalid
    ensures Drained(ws[i + 1].c, p) && AckedAt(ws, acts, k, i, p)
  {
    hide Apply, Enabled, Acks, Drained;
    StepOf(cfg, ws, acts, i);
    VetoLiftsExactly(cfg, ws[i], acts[i], p);
    if Acks(ws[i], acts[i], p) {
      k := i;
    } else {
      k := AckedSince(cfg, ws, acts, i, p);
    }
  }

  /** One at a time, the veto itself stood since that acknowledgement, and no invalidation of the pair is
      in progress once it has lifted. */
  lemma VetoLiftsSingly(cfg: Config, ws: seq<World>, acts: seq<Act>, i: nat, p: Pair) returns (k: nat)
    requires cfg.Valid() && Run(cfg, ws, acts) && ws[0] == Init() && i < |acts| && Singly(ws, acts, p)
    requires p in ws[i].c.invalid && p !in ws[i + 1].c.invalid
    ensures Drained(ws[i + 1].c, p) && k <= i && Acks(ws[k], acts[k], p)
    ensures forall n :: k < n <= i ==> p in ws[n].c.invalid
    ensures Undisputed(ws[i + 1], p)
  {
    hide Apply, Enabled, Acks, Drained, Calls, Singly;
    k := VetoLifts(cfg, ws, acts, i, p);
    forall n | k < n <= i ensures p in ws[n].c.invalid {
      VetoStands(cfg, ws, acts, n, p);
    }
    VetoStands(cfg, ws, acts, i + 1, p);
  }
}
