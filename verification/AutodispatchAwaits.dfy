/**
 Between two blocks of the auto-dispatch service everything is at an `await`: each block runs to
 its end, however many drains, releases and wakes it goes through on the way.
 */
module AutodispatchAwaits {
  import opened Options
  import opened Kernel
  import opened Autodispatch
  import opened AutodispatchSafety
  import opened AutodispatchRuns
  import opened AutodispatchBlocks

  /** Awaiting the planner or the materializer, or settled. */
  predicate AtAwait(i: Intake) {
    i.phase.Proposing? || i.phase.Preparing? || i.phase.Done?
  }

  /** From `s` to `t` the intakes there were are untouched and the new ones are at an `await`. */
  ghost predicate AddsAwaiting(s: State, t: State) {
    && (forall k :: k in s.intakes ==> k in t.intakes && t.intakes[k] == s.intakes[k])
    && (forall k :: k in t.intakes && k !in s.intakes ==> AtAwait(t.intakes[k]))
  }

  lemma LeaseNext(c: Config, s: State, e: Step)
    requires LeaseInv(s)
    ensures LeaseInv(Next(c, s, e))
  {
    if Enabled(s, e) {
      LeaseStep(c, s, e);
    }
  }

  lemma TurnLease(c: Config, s: State, d: nat, clock: Clock)
    requires AtTop(s, d) && LeaseInv(s)
    ensures var t := TurnOf(c, s, d, clock);
            && LeaseInv(t)
            && (t.queue.drains[d].pc.Awaiting? ==>
                  var k := t.queue.drains[d].pc.token;
                  k !in s.intakes && t.intakes == s.intakes[k := Intake(s.queue.pending[0], Starting, false)])
            && (!t.queue.drains[d].pc.Awaiting? ==> t.intakes == s.intakes)
  {
    TurnOutcome(c, s, d, clock);
    ReadIs(c, s, clock);
    var r := Read(c, s, clock);
    LeaseNext(c, r, OfDrain(d, Turn));
    if !Admits(c, r) {
      assert Next(c, r, OfDrain(d, Turn)) == Tick(r.(queue := TurnAway(c, r, d)));
    }
  }

  /** A drain's block leaves the intakes there were alone. */
  lemma {:induction false} PrefixAwaits(c: Config, s: State, d: nat, clock: Clock)
    requires AtTop(s, d) && LeaseInv(s)
    ensures var u := Prefix(c, s, d, clock); LeaseInv(u) && AddsAwaiting(s, u)
    decreases |s.queue.pending|, 0
  {
    TurnOutcome(c, s, d, clock);
    TurnLease(c, s, d, clock);
    var t := TurnOf(c, s, d, clock);
    match t.queue.drains[d].pc
    case Looping => PrefixAwaits(c, t, d, clock);
    case Unwinding =>
    case Awaiting(k) => EntryAwaits(c, s, t, k, clock);
  }

  /** The rest of that block once the drain has admitted the intake of `k`. */
  lemma {:induction false} EntryAwaits(c: Config, s: State, t: State, k: nat, clock: Clock)
    requires LeaseInv(t) && k !in s.intakes && InPhase(t, k, Starting) && t.intakes == s.intakes[k := t.intakes[k]]
    ensures k in Entered(c, t, k, clock).intakes
    ensures var b := Entered(c, t, k, clock);
            var u := if InPhase(b, k, Finishing) then Leave(c, b, k, clock) else b;
            LeaseInv(u) && AddsAwaiting(s, u)
    decreases |t.queue.pending|, 4
  {
    EnteredIs(c, t, k, clock);
    EnteredLease(c, t, k, clock);
    var b := Entered(c, t, k, clock);
    if InPhase(b, k, Finishing) {
      LeaveAwaits(c, b, k, clock);
    }
  }

  lemma EnteredLease(c: Config, t: State, k: nat, clock: Clock)
    requires LeaseInv(t)
    ensures LeaseInv(Entered(c, t, k, clock))
  {
    LeaseNext(c, t, Outside(World(ReadAt(t.repo, clock(t.steps)))));
    LeaseNext(c, Read(c, t, clock), OfIntake(k, Begin));
  }

  /** The `finally` of an intake settles it, and touches no other that was there. */
  lemma {:induction false} LeaveAwaits(c: Config, s: State, k: nat, clock: Clock)
    requires InPhase(s, k, Finishing) && LeaseInv(s)
    ensures var u := Leave(c, s, k, clock);
            && LeaseInv(u) && k in u.intakes && u.intakes[k].phase.Done?
            && (forall x :: x in s.intakes && x != k ==> x in u.intakes && u.intakes[x] == s.intakes[x])
            && (forall x :: x in u.intakes && x !in s.intakes ==> AtAwait(u.intakes[x]))
    decreases |s.queue.pending|, 3
  {
    var f := LeaseGiven(c, s, k);
    LeaseNext(c, s, OfIntake(k, FreeLease));
    GivenIs(c, s, k);
    WakeAwaits(c, f, clock);
    var w := WakeAfter(c, f, clock);
    LeaseNext(c, w, OfIntake(k, Remove));
    RemovedIs(c, w, k);
  }

  lemma GivenIs(c: Config, s: State, k: nat)
    requires InPhase(s, k, Finishing)
    ensures var f := LeaseGiven(c, s, k);
            f.queue == s.queue && f.intakes == s.intakes[k := s.intakes[k].(phase := LeaseFreed)]
  {
  }

  lemma RemovedIs(c: Config, w: State, k: nat)
    requires InPhase(w, k, LeaseFreed)
    ensures Next(c, w, OfIntake(k, Remove)).intakes == w.intakes[k := w.intakes[k].(phase := Phase.Done)]
  {
  }

  lemma {:induction false} WakeAwaits(c: Config, s: State, clock: Clock)
    requires LeaseInv(s)
    ensures var u := WakeAfter(c, s, clock); LeaseInv(u) && AddsAwaiting(s, u)
    decreases |s.queue.pending|, 2
  {
    if s.owed > 0 {
      WokenIs(c, s);
      LeaseNext(c, s, Wake);
      LaunchAwaits(c, s, Next(c, s, Wake), clock);
    }
  }

  lemma {:induction false} LaunchAwaits(c: Config, s: State, t: State, clock: Clock)
    requires LeaseInv(t)
    ensures var u := Launch(c, s, t, clock); LeaseInv(u) && AddsAwaiting(t, u)
    decreases |t.queue.pending|, 1
  {
    var e := s.queue.nextDrain;
    if t.queue.nextDrain > e && AtTop(t, e) {
      PrefixAwaits(c, t, e, clock);
      var v := Prefix(c, t, e, clock);
      LeaseNext(c, v, OfDrain(e, Publish));
      assert Next(c, v, OfDrain(e, Publish)).intakes == v.intakes;
    }
  }

  // ----- whole blocks -----

  ghost predicate AllAwait(s: State) {
    forall k :: k in s.intakes ==> AtAwait(s.intakes[k])
  }

  /** From the planner's answer an intake gets to the materializer or to the end of its body, and
      from the materializer's answer to the end. */
  lemma BodyAwaits(c: Config, s: State, k: nat, reply: PlanReply, retained: nat,
                   ok: bool, verdict: Verdict, clock: Clock)
    requires LeaseInv(s) && k in s.intakes
    ensures s.intakes[k].phase.Proposing? ==>
              var t := Planning(c, s, k, reply, retained, clock);
              && LeaseInv(t) && k in t.intakes && t.intakes == s.intakes[k := t.intakes[k]]
              && (t.intakes[k].phase.Preparing? || t.intakes[k].phase == Finishing)
    ensures s.intakes[k].phase.Preparing? ==>
              var t := Granting(c, s, k, ok, verdict, clock);
              && LeaseInv(t) && k in t.intakes && t.intakes == s.intakes[k := t.intakes[k]]
              && t.intakes[k].phase == Finishing
  {
    if s.intakes[k].phase.Proposing? {
      PlanningAwaits(c, s, k, reply, retained, clock);
    } else if s.intakes[k].phase.Preparing? {
      GrantingAwaits(c, s, k, ok, verdict, clock);
    }
  }

  lemma PlanningAwaits(c: Config, s: State, k: nat, reply: PlanReply, retained: nat, clock: Clock)
    requires LeaseInv(s) && k in s.intakes && s.intakes[k].phase.Proposing?
    ensures var t := Planning(c, s, k, reply, retained, clock);
            && LeaseInv(t) && k in t.intakes && t.intakes == s.intakes[k := t.intakes[k]]
            && (t.intakes[k].phase.Preparing? || t.intakes[k].phase == Finishing)
  {
    ReadIs(c, s, clock);
    var r := Read(c, s, clock);
    LeaseNext(c, r, OfIntake(k, Propose(reply)));
    ProposedIs(c, r, k, reply);
    var p := Next(c, r, OfIntake(k, Propose(reply)));
    if p.intakes[k].phase.Planned? {
      ReadIs(c, p, clock);
      LeaseNext(c, Read(c, p, clock), OfIntake(k, CheckRoom(retained)));
      CheckedIs(c, Read(c, p, clock), k, retained);
    }
  }

  lemma ProposedIs(c: Config, s: State, k: nat, reply: PlanReply)
    requires k in s.intakes && s.intakes[k].phase.Proposing?
    ensures var t := Next(c, s, OfIntake(k, Propose(reply)));
            && k in t.intakes && t.intakes == s.intakes[k := t.intakes[k]]
            && (t.intakes[k].phase.Planned? || t.intakes[k].phase == Finishing)
  {
  }

  lemma CheckedIs(c: Config, s: State, k: nat, retained: nat)
    requires k in s.intakes && s.intakes[k].phase.Planned?
    ensures var t := Next(c, s, OfIntake(k, CheckRoom(retained)));
            && k in t.intakes && t.intakes == s.intakes[k := t.intakes[k]]
            && (t.intakes[k].phase.Preparing? || t.intakes[k].phase == Finishing)
  {
  }

  lemma GrantingAwaits(c: Config, s: State, k: nat, ok: bool, verdict: Verdict, clock: Clock)
    requires LeaseInv(s) && k in s.intakes && s.intakes[k].phase.Preparing?
    ensures var t := Granting(c, s, k, ok, verdict, clock);
            && LeaseInv(t) && k in t.intakes && t.intakes == s.intakes[k := t.intakes[k]]
            && t.intakes[k].phase == Finishing
  {
    LeaseNext(c, s, OfIntake(k, PrepareSettled(ok)));
    var p := Next(c, s, OfIntake(k, PrepareSettled(ok)));
    assert p.intakes == s.intakes[k := p.intakes[k]];
    if p.intakes[k].phase.Ready? {
      ReadIs(c, p, clock);
      LeaseNext(c, Read(c, p, clock), OfIntake(k, Authorize(verdict)));
      var t := Next(c, Read(c, p, clock), OfIntake(k, Authorize(verdict)));
      assert t.intakes == p.intakes[k := t.intakes[k]];
    }
  }

  lemma LeaveIfOverAwaits(c: Config, s: State, t: State, k: nat, clock: Clock)
    requires AllAwait(s) && LeaseInv(t) && k in s.intakes && k in t.intakes && t.intakes == s.intakes[k := t.intakes[k]]
    requires t.intakes[k].phase.Preparing? || t.intakes[k].phase == Finishing
    ensures LeaseInv(LeaveIfOver(c, t, k, clock)) && AllAwait(LeaveIfOver(c, t, k, clock))
  {
    if InPhase(t, k, Finishing) {
      LeaveAwaits(c, t, k, clock);
    }
  }

  lemma OtherAwaits(c: Config, s: State, e: Step)
    requires AllAwait(s) && LeaseInv(s) && RunsAlone(e)
    ensures LeaseInv(Next(c, s, e)) && AllAwait(Next(c, s, e))
  {
    LeaseNext(c, s, e);
    if Enabled(s, e) && e.Outside? {
      OutsideFrame(s, e.o);
    }
  }

  lemma DoAwaits(c: Config, s: State, call: Call, clock: Clock)
    requires Callable(s, call) && LeaseInv(s) && AllAwait(s)
    ensures LeaseInv(Do(c, s, call, clock)) && AllAwait(Do(c, s, call, clock))
  {
    match call
    case Completed(run) =>
      LeaseNext(c, s, Notify(run));
      LaunchAwaits(c, s, Next(c, s, Notify(run)), clock);
    case Resumed(d) =>
      LeaseNext(c, s, OfDrain(d, Resume));
      PrefixAwaits(c, Next(c, s, OfDrain(d, Resume)), d, clock);
    case Unwound(d) =>
      LeaseNext(c, s, OfDrain(d, DrainStep.Unwind));
      LaunchAwaits(c, s, Next(c, s, OfDrain(d, DrainStep.Unwind)), clock);
    case PlannerSettled(k, reply, retained) =>
      BodyAwaits(c, s, k, reply, retained, false, AuthorizeThrows, clock);
      LeaveIfOverAwaits(c, s, Planning(c, s, k, reply, retained, clock), k, clock);
    case MaterializerSettled(k, ok, verdict) =>
      BodyAwaits(c, s, k, PlannerFailed(false), 0, ok, verdict, clock);
      LeaveIfOverAwaits(c, s, Granting(c, s, k, ok, verdict, clock), k, clock);
    case OtherRelease(k) =>
      LeaseNext(c, s, Outside(ReleaseGate(k)));
      WakeAwaits(c, Next(c, s, Outside(ReleaseGate(k))), clock);
    case Other(e) => OtherAwaits(c, s, e);
  }

  /** After any run of blocks, lapses or not, every intake awaits the planner or the materializer or
      is settled: none is left between two fences, with its lease not given back, or still active
      after giving it back. */
  lemma {:induction false} BlocksEndAtAwaits(c: Config, s: State, calls: seq<Call>, clock: Clock)
    requires Initial(s)
    ensures LeaseInv(Blocks(c, s, calls, clock)) && AllAwait(Blocks(c, s, calls, clock))
  {
    if calls != [] {
      var n := |calls| - 1;
      BlocksEndAtAwaits(c, s, calls[..n], clock);
      var before := Blocks(c, s, calls[..n], clock);
      if Callable(before, calls[n]) {
        DoAwaits(c, before, calls[n], clock);
      }
    }
  }
}
