/**
 What each step of the auto-dispatch protocol does, field by field and from the conditions the
 source tests, and what that means over whole runs: why an intent leaves the queue, what may be
 planned and prepared, and when prepared bytes are kept.
 */
module AutodispatchSteps {
  import opened Options
  import opened Sequences
  import opened Kernel
  import opened BackgroundGate
  import opened Autodispatch
  import opened AutodispatchSafety
  import opened AutodispatchRuns
  import Retention

  /** The fence of an intent passes now, under this policy. */
  ghost predicate Passes(c: Config, s: State, aborted: bool, p: Pending, policy: Policy) {
    !s.stopped && !aborted && c.enabled && !s.gate.closed && Stands(s.repo, p, policy)
  }

  ghost predicate PassesNow(c: Config, s: State, aborted: bool, p: Pending) {
    exists policy :: Passes(c, s, aborted, p, policy)
  }

  lemma PassesExact(c: Config, s: State, aborted: bool, p: Pending)
    ensures PassesNow(c, s, aborted, p) <==> Fence(c, s, aborted, p).Some?
    ensures forall policy :: Passes(c, s, aborted, p, policy) <==> Fence(c, s, aborted, p) == Some(policy)
  {
    forall policy ensures Passes(c, s, aborted, p, policy) <==> Fence(c, s, aborted, p) == Some(policy) {
      FenceExact(s.repo, p, policy);
    }
    if Fence(c, s, aborted, p).Some? {
      assert Passes(c, s, aborted, p, Fence(c, s, aborted, p).value);
    }
  }

  // ----- the queue -----

  /** The queue is emptied; every intent in it, in order, was dropped. */
  ghost predicate Emptied(q: Queue, added: seq<Pending>, r: Queue) {
    var gone := q.pending + added;
    && r.pending == [] && !r.wakeRequested
    && |r.dropped| == |q.dropped| + |gone| && q.dropped <= r.dropped
    && forall i :: 0 <= i < |gone| ==> r.dropped[|q.dropped| + i] == gone[i].born
  }

  /** A further drain has been started, at the top of its loop and not yet on record. */
  ghost predicate Started(q: Queue, r: Queue) {
    r.drains == q.drains[q.nextDrain := Drain(Looping, false)] && r.nextDrain == q.nextDrain + 1
  }

  /** What a notification is captured as. */
  ghost predicate Captures(k: Repo, run: RunId, born: nat, p: Pending) {
    && Intents !in k.unreadable && Policies !in k.unreadable && Controls !in k.unreadable
    && run in k.runSession && k.runSession[run] in k.intents
    && var session := k.runSession[run];
       var intent := k.intents[session];
       && intent.latestRun == run
       && exists policy, i: nat :: FirstListed(k, session, policy, i)
            && p == Pending(run, session, intent.entries, intent.latestTurn, run,
                            policy.id, policy.version, k.control.version, born)
  }

  lemma CapturesExact(k: Repo, run: RunId, born: nat)
    ensures forall p :: Captures(k, run, born, p) <==> Capture(k, run, born) == Some(p)
  {
    forall p ensures Captures(k, run, born, p) <==> Capture(k, run, born) == Some(p) {
      CaptureExact(k, run, born, p);
    }
  }

  /** A notification of `run` is accepted, as `p`. */
  ghost predicate Accepts(c: Config, s: State, run: RunId, p: Pending) {
    && !s.stopped && c.enabled && c.hasPlanner && run !in s.queue.seen
    && Captures(s.repo, run, s.steps, p)
  }

  /** A notification is accepted exactly on those conditions.  Then the run counts as seen, and
      its intent goes to the end of the queue and wakes the drain on record or starts one; under
      a closed gate the whole queue, with it, is dropped instead. */
  lemma NotifyExact(c: Config, s: State, run: RunId, p: Pending)
    ensures var t := Next(c, s, Notify(run));
            var q, r := s.queue, t.queue;
            && t == s.(queue := r, steps := s.steps + 1)
            && ((forall x :: !Accepts(c, s, run, x)) ==> r == q)
            && (Accepts(c, s, run, p) ==>
                  && r.seen == q.seen + {run} && r.accepted == q.accepted[s.steps := run]
                  && r.drainTask == q.drainTask
                  && if s.gate.closed then
                       Emptied(q, [p], r) && r.drains == q.drains && r.nextDrain == q.nextDrain
                     else
                       && r.pending == q.pending + [p] && r.dropped == q.dropped
                       && if q.drainTask.Some? then
                            r.wakeRequested && r.drains == q.drains && r.nextDrain == q.nextDrain
                          else r.wakeRequested == q.wakeRequested && Started(q, r))
  {
    CapturesExact(s.repo, run, s.steps);
    var captured := Capture(s.repo, run, s.steps);
    if captured.Some? && !Accepts(c, s, run, captured.value) {
      assert Captures(s.repo, run, s.steps, captured.value);
    }
  }

  /** The wake of a release loop: dropped queue under a closed gate, a request for the drain on
      record, or a drain started over a queue that holds something. */
  lemma WakeStepExact(c: Config, s: State)
    requires s.owed > 0
    ensures var t := Next(c, s, Wake);
            var q, r := s.queue, t.queue;
            && t == s.(queue := r, owed := s.owed - 1, steps := s.steps + 1)
            && r.seen == q.seen && r.accepted == q.accepted && r.drainTask == q.drainTask
            && if s.stopped then r == q
               else if s.gate.closed then Emptied(q, [], r) && r.drains == q.drains && r.nextDrain == q.nextDrain
               else
                 && r.pending == q.pending && r.dropped == q.dropped
                 && if q.drainTask.Some? then r.wakeRequested && r.drains == q.drains && r.nextDrain == q.nextDrain
                    else r.wakeRequested == q.wakeRequested && if q.pending == [] then r == q else Started(q, r)
  {
  }

  /** One turn of a drain of a running service, with work queued and the gate open: the first
      intent goes, unadmitted, exactly if its own fence fails; is admitted exactly if the fence
      passes and the slot is free; and everything behind it stays queued, in order. */
  lemma TurnExact(c: Config, s: State, d: nat)
    requires d in s.queue.drains && s.queue.drains[d].pc.Looping?
    requires !s.stopped && s.queue.pending != [] && !s.gate.closed
    ensures var t := Next(c, s, OfDrain(d, Turn));
            var q, r, first, token := s.queue, t.queue, s.queue.pending[0], s.gate.nextToken;
            && t == s.(queue := r, gate := t.gate, intakes := t.intakes, steps := s.steps + 1)
            && r == q.(pending := r.pending, dropped := r.dropped, drains := r.drains)
            && if !PassesNow(c, s, false, first) then
                 && r.pending == q.pending[1..] && r.dropped == q.dropped + [first.born]
                 && r.drains == q.drains && t.intakes == s.intakes && t.gate == s.gate
               else if s.gate.holder.Some? then
                 && r.pending == q.pending && r.dropped == q.dropped
                 && r.drains == q.drains[d := Drain(Unwinding, q.drains[d].published)]
                 && t.intakes == s.intakes && t.gate == s.gate
               else
                 && r.pending == q.pending[1..] && r.dropped == q.dropped
                 && r.drains == q.drains[d := Drain(Awaiting(token), q.drains[d].published)]
                 && t.intakes == s.intakes[token := Intake(first, Starting, false)]
                 && t.gate == Gate(Some(Reservation(AUTODISPATCH, token)), token + 1, false, s.gate.wakes)
  {
    PassesExact(c, s, false, s.queue.pending[0]);
  }

  /** Otherwise the turn ends the drain, and drops the queue if the gate was closed under it. */
  lemma LastTurnExact(c: Config, s: State, d: nat)
    requires d in s.queue.drains && s.queue.drains[d].pc.Looping?
    requires s.stopped || s.queue.pending == [] || s.gate.closed
    ensures var t := Next(c, s, OfDrain(d, Turn));
            var q, r := s.queue, t.queue;
            && t == s.(queue := r, steps := s.steps + 1)
            && r == q.(pending := r.pending, dropped := r.dropped, drains := r.drains)
            && r.drains == q.drains[d := Drain(Unwinding, q.drains[d].published)]
            && if s.stopped || q.pending == [] then r.pending == q.pending && r.dropped == q.dropped
               else Emptied(q.(wakeRequested := false), [], r.(wakeRequested := false))
  {
  }

  /** The `finally` of a drain: it is gone and none is on record; under a closed gate the queue is
      dropped, else a request that came meanwhile starts one more drain over what is queued. */
  lemma UnwindExact(c: Config, s: State, d: nat)
    requires d in s.queue.drains && s.queue.drains[d].pc.Unwinding? && s.queue.drains[d].published
    ensures var t := Next(c, s, OfDrain(d, DrainStep.Unwind));
            var q, r := s.queue, t.queue;
            var left := map x | x in q.drains && x != d :: q.drains[x];
            && t == s.(queue := r, steps := s.steps + 1)
            && r.seen == q.seen && r.accepted == q.accepted && r.drainTask.None?
            && if s.gate.closed then Emptied(q, [], r) && r.drains == left && r.nextDrain == q.nextDrain
               else
                 && r.pending == q.pending && r.dropped == q.dropped && !r.wakeRequested
                 && if q.wakeRequested && !s.stopped && q.pending != [] then
                      r.drains == left[q.nextDrain := Drain(Looping, false)] && r.nextDrain == q.nextDrain + 1
                    else r.drains == left && r.nextDrain == q.nextDrain
  {
  }

  lemma PublishResumeExact(c: Config, s: State, d: nat)
    requires d in s.queue.drains
    ensures var drain, q := s.queue.drains[d], s.queue;
            && (!drain.pc.Looping? && !drain.published ==>
                  Next(c, s, OfDrain(d, Publish)) == s.(steps := s.steps + 1,
                    queue := q.(drainTask := Some(d), drains := q.drains[d := Drain(drain.pc, true)])))
            && (drain.published && drain.pc.Awaiting? && drain.pc.token in s.intakes
                && s.intakes[drain.pc.token].phase.Done? ==>
                  Next(c, s, OfDrain(d, Resume)) == s.(steps := s.steps + 1,
                    queue := q.(drains := q.drains[d := Drain(Looping, true)])))
  {
  }

  /** Foreground activity drops the queue and aborts every active intake; `stop` does the same,
      once, and takes the wake away from the gate. */
  lemma InvalidateExact(c: Config, s: State, e: Step)
    requires e.Foreground? || (e.Stop? && !s.stopped)
    ensures var t := Next(c, s, e);
            var q, r := s.queue, t.queue;
            && t == s.(queue := r, intakes := t.intakes, gate := t.gate, stopped := t.stopped, steps := s.steps + 1)
            && Emptied(q, [], r)
            && r == q.(pending := r.pending, dropped := r.dropped, wakeRequested := false)
            && t.intakes.Keys == s.intakes.Keys
            && (forall k :: k in s.intakes ==>
                  t.intakes[k] == s.intakes[k].(aborted := s.intakes[k].aborted || !s.intakes[k].phase.Done?))
            && t.stopped == (e.Stop? || s.stopped)
            && t.gate == s.gate.(wakes := t.gate.wakes)
            && (e.Foreground? ==> t.gate.wakes == s.gate.wakes)
            && (e.Stop? ==> forall w :: w in t.gate.wakes <==> w in s.gate.wakes && w != OWN_WAKE)
  {
  }

  /** A second stop changes nothing, and the stop promise settles exactly when the service is
      stopped, no drain is on record and no intake is active. */
  lemma StopExact(c: Config, s: State)
    ensures s.stopped ==> Next(c, s, Stop) == s.(steps := s.steps + 1)
    ensures Next(c, s, StopSettled) == s.(steps := s.steps + 1,
              settled := s.settled || (s.stopped && s.queue.drainTask.None?
                                       && forall k :: k in s.intakes ==> s.intakes[k].phase.Done?))
  {
  }

  // ----- one intake -----

  /** What a step did, by the token of the intake. */
  datatype Did = Did(planned: bool, prepared: bool, granted: bool, kept: bool, discarded: bool, freed: bool)

  const NOTHING := Did(false, false, false, false, false, false)

  /** One more of `k`, if so. */
  function More(m: multiset<nat>, k: nat, b: bool): multiset<nat> {
    if b then m + multiset{k} else m
  }

  function Counted(f: Effects, k: nat, did: Did): Effects {
    Effects(More(f.planned, k, did.planned), More(f.prepared, k, did.prepared), More(f.granted, k, did.granted),
            More(f.kept, k, did.kept), More(f.discarded, k, did.discarded), More(f.freed, k, did.freed))
  }

  /** The step moved the intake of `k` to `phase` and did this, and nothing else. */
  ghost predicate Moved(s: State, k: nat, phase: Phase, aborted: bool, did: Did, t: State) {
    && k in s.intakes
    && t == s.(intakes := s.intakes[k := Intake(s.intakes[k].p, phase, aborted)],
               effects := Counted(s.effects, k, did), steps := s.steps + 1)
  }

  /** The planner is asked exactly if the first fence passes. */
  lemma BeginExact(c: Config, s: State, k: nat)
    requires k in s.intakes && s.intakes[k].phase.Starting?
    ensures var i := s.intakes[k];
            Moved(s, k, if PassesNow(c, s, i.aborted, i.p) then Proposing else Finishing, i.aborted, NOTHING,
                  Next(c, s, OfIntake(k, Begin)))
  {
    PassesExact(c, s, s.intakes[k].aborted, s.intakes[k].p);
  }

  /** A plan is created exactly for a proposal of an operation that the config allows and that the
      policy of a passing fence allows; the intake goes on exactly with a frozen one, under that
      policy and with everything it takes to prepare it.  A missed deadline aborts. */
  lemma ProposeExact(c: Config, s: State, k: nat, reply: PlanReply, policy: Policy)
    requires k in s.intakes && s.intakes[k].phase.Proposing?
    ensures var i, t := s.intakes[k], Next(c, s, OfIntake(k, Propose(reply)));
            match reply
            case PlannerFailed(deadline) => Moved(s, k, Finishing, i.aborted || deadline, NOTHING, t)
            case Proposal(operation, created) =>
              && (!PassesNow(c, s, i.aborted, i.p) ==> Moved(s, k, Finishing, i.aborted, NOTHING, t))
              && (Passes(c, s, i.aborted, i.p, policy) ==>
                    var allowed := operation in c.operations && operation in policy.operations;
                    var complete := allowed && created.Plan? && created.frozen
                                    && c.hasDependencies && c.hasMaterializer;
                    Moved(s, k, if complete then Planned(created.id, policy) else Finishing, i.aborted,
                          NOTHING.(planned := allowed), t))
  {
    PassesExact(c, s, s.intakes[k].aborted, s.intakes[k].p);
  }

  /** Preparation starts exactly if the fence still passes and fewer than the budget are retained. */
  lemma RoomExact(c: Config, s: State, k: nat, retained: nat)
    requires k in s.intakes && s.intakes[k].phase.Planned?
    ensures var i := s.intakes[k];
            Moved(s, k, if PassesNow(c, s, i.aborted, i.p) && retained < Retention.MAX_RETAINED
                        then Preparing(i.phase.plan, i.phase.policy) else Finishing,
                  i.aborted, NOTHING, Next(c, s, OfIntake(k, CheckRoom(retained))))
  {
    PassesExact(c, s, s.intakes[k].aborted, s.intakes[k].p);
  }

  lemma PreparedExact(c: Config, s: State, k: nat, ok: bool)
    requires k in s.intakes && s.intakes[k].phase.Preparing?
    ensures var i := s.intakes[k];
            Moved(s, k, if ok then Ready(i.phase.plan) else Finishing, i.aborted, NOTHING.(prepared := ok),
                  Next(c, s, OfIntake(k, PrepareSettled(ok))))
  {
  }

  /** The kernel answered that the execution exists: authorized, reserved, or made before. */
  predicate Answered(verdict: Verdict) {
    verdict.Execution? && (verdict.status.Authorized? || verdict.status.Reserved? || verdict.replayed)
  }

  /** A grant is asked for exactly if the last fence passes; what was prepared is kept exactly if
      it was asked for and stands, and discarded otherwise. */
  lemma AuthorizeExact(c: Config, s: State, k: nat, verdict: Verdict)
    requires k in s.intakes && s.intakes[k].phase.Ready?
    ensures var i := s.intakes[k];
            var asked := PassesNow(c, s, i.aborted, i.p);
            var kept := asked && Answered(verdict);
            Moved(s, k, Finishing, i.aborted, NOTHING.(granted := asked, kept := kept, discarded := !kept),
                  Next(c, s, OfIntake(k, Authorize(verdict))))
  {
    var i := s.intakes[k];
    PassesExact(c, s, i.aborted, i.p);
  }

  /** The lease is given back; if it was the live one the slot is empty and this service's wake is
      owed a call, if registered. */
  lemma FinallyExact(c: Config, s: State, k: nat)
    requires k in s.intakes
    ensures var i := s.intakes[k];
            && (i.phase.LeaseFreed? ==> Moved(s, k, Phase.Done, i.aborted, NOTHING, Next(c, s, OfIntake(k, Remove))))
            && (i.phase.Finishing? ==>
                  var t := Next(c, s, OfIntake(k, FreeLease));
                  var live := s.gate.holder.Some? && s.gate.holder.value.token == k;
                  && Moved(s.(gate := t.gate, owed := t.owed), k, LeaseFreed, i.aborted, NOTHING.(freed := true), t)
                  && t.gate == s.gate.(holder := if live then None else s.gate.holder)
                  && t.owed == s.owed + One(live && OWN_WAKE in s.gate.wakes))
  {
  }

  // ----- everyone else, and whose turn it is -----

  /** What others do to the gate, the repository and the clock. */
  lemma OutsideExact(c: Config, s: State, o: OutsideStep)
    ensures var t := Next(c, s, Outside(o));
            && t == s.(repo := t.repo, gate := t.gate, owed := t.owed, steps := s.steps + 1)
            && (!o.World? ==> t.repo == s.repo) && (!o.ReleaseGate? ==> t.owed == s.owed)
            && match o
               case World(repo) => t.gate == s.gate && (Evolves(s.repo, repo) ==> t.repo == repo)
               case AcquireGate(owner) =>
                 t.gate == if s.gate.closed || s.gate.holder.Some? then s.gate
                           else Gate(Some(Reservation(owner, s.gate.nextToken)), s.gate.nextToken + 1, false,
                                     s.gate.wakes)
               case ReleaseGate(token) =>
                 var live := s.gate.holder.Some? && s.gate.holder.value.token == token && token !in s.intakes;
                 && t.gate == s.gate.(holder := if live then None else s.gate.holder)
                 && t.owed == s.owed + One(live && OWN_WAKE in s.gate.wakes)
               case CloseGate => t.gate == s.gate.(closed := true)
               case ReopenGate => t.gate == s.gate.(closed := false)
               case ShutdownGate => t.gate == s.gate.(closed := true, wakes := [])
               case SubscribeGate(w) =>
                 t.gate == s.gate.(wakes := if w == OWN_WAKE || w in s.gate.wakes then s.gate.wakes
                                            else s.gate.wakes + [w])
               case UnsubscribeGate(w) =>
                 && t.gate == s.gate.(wakes := t.gate.wakes)
                 && forall x :: x in t.gate.wakes <==> x in s.gate.wakes && (x != w || w == OWN_WAKE)
  {
  }

  predicate IntakeInTurn(phase: Phase, x: IntakeStep) {
    match x
    case Begin => phase.Starting?
    case Propose(_) => phase.Proposing?
    case CheckRoom(_) => phase.Planned?
    case PrepareSettled(_) => phase.Preparing?
    case Authorize(_) => phase.Ready?
    case FreeLease => phase.Finishing?
    case Remove => phase.LeaseFreed?
  }

  /** A drain publishes once it has come to its first `await`, resumes when the intake it awaits
      is done, and unwinds when its loop is over. */
  predicate DrainInTurn(s: State, drain: Drain, n: DrainStep) {
    match n
    case Turn => drain.pc.Looping?
    case Publish => !drain.published && (drain.pc.Awaiting? || drain.pc.Unwinding?)
    case Resume =>
      drain.published && drain.pc.Awaiting? && drain.pc.token in s.intakes && s.intakes[drain.pc.token].phase.Done?
    case Unwind => drain.published && drain.pc.Unwinding?
  }

  /** Out of turn no drain, no intake and no wake does anything. */
  lemma OutOfTurn(c: Config, s: State, e: Step)
    requires match e
             case Wake => s.owed == 0
             case OfDrain(d, n) => d in s.queue.drains ==> !DrainInTurn(s, s.queue.drains[d], n)
             case OfIntake(k, x) => k in s.intakes ==> !IntakeInTurn(s.intakes[k].phase, x)
             case _ => false
    ensures Next(c, s, e) == s.(steps := s.steps + 1)
  {
  }
}
