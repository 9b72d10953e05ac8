/**
 What every reachable state of the auto-dispatch protocol keeps, part by part.
 */
module AutodispatchSafety {
  import opened Options
  import opened Sequences
  import opened Kernel
  import opened BackgroundGate
  import opened Autodispatch

  // ----- the lease -----

  predicate HoldsLease(i: Intake) {
    !i.phase.LeaseFreed? && !i.phase.Done?
  }

  /** An intake's lease is the gate's current one exactly until its `finally`. */
  ghost predicate LeaseInv(s: State) {
    && (s.gate.holder.Some? ==> s.gate.holder.value.token < s.gate.nextToken)
    && (forall t :: t in s.intakes ==> t < s.gate.nextToken)
    && (forall t :: t in s.intakes ==> (HoldsLease(s.intakes[t]) <==> Holds(s.gate, t)))
  }

  lemma AdvanceKeepsIntent(c: Config, fence: Option<Policy>, token: nat, i: Intake, f: Effects, e: IntakeStep)
    requires IntakeEnabled(i, e)
    ensures var next := Advance(c, fence, token, i, f, e).intake;
            && next.p == i.p && (i.aborted ==> next.aborted)
            && Active(i) && (next.phase.Done? <==> e.Remove?)
            && (HoldsLease(next) <==> HoldsLease(i) && !e.FreeLease?)
  {
  }

  lemma LeaseIntake(c: Config, s: State, token: nat, e: IntakeStep)
    requires LeaseInv(s) && token in s.intakes && IntakeEnabled(s.intakes[token], e)
    ensures LeaseInv(IntakeEffect(c, s, token, e))
    ensures e.FreeLease? ==> Holds(s.gate, token)
  {
    var i := s.intakes[token];
    AdvanceKeepsIntent(c, Fence(c, s, i.aborted, i.p), token, i, s.effects, e);
  }

  lemma LeaseOutside(s: State, e: OutsideStep)
    requires LeaseInv(s) && OutsideEnabled(s, e)
    ensures LeaseInv(OutsideEffect(s, e))
  {
  }

  lemma LeaseStep(c: Config, s: State, e: Step)
    requires LeaseInv(s) && Enabled(s, e)
    ensures LeaseInv(Effect(c, s, e))
  {
    match e
    case OfIntake(t, i) => LeaseIntake(c, s, t, i);
    case Outside(o) => LeaseOutside(s, o);
    case OfDrain(d, n) => LeaseDrain(c, s, d, n);
    case _ =>
  }

  lemma LeaseDrain(c: Config, s: State, d: nat, e: DrainStep)
    requires LeaseInv(s) && DrainEnabled(s, d, e)
    ensures LeaseInv(DrainEffect(c, s, d, e))
  {
  }

  // ----- the queue -----

  ghost predicate AcceptedAs(q: Queue, p: Pending) {
    p.born in q.accepted && q.accepted[p.born] == p.runId && p.born !in q.dropped
  }

  /** Accepted notifications are distinct runs, all seen. */
  ghost predicate AcceptedInv(s: State) {
    && (forall b :: b in s.queue.accepted ==> b < s.steps && s.queue.accepted[b] in s.queue.seen)
    && (forall a, b :: a in s.queue.accepted && b in s.queue.accepted && a != b ==>
          s.queue.accepted[a] != s.queue.accepted[b])
    && (forall b :: b in s.queue.dropped ==> b in s.queue.accepted)
  }

  /** The admitted intents, in token order, followed by the pending ones, in queue
      order, keep the order of notification. */
  ghost predicate OrderInv(s: State) {
    && (forall i, j :: 0 <= i < j < |s.queue.pending| ==> s.queue.pending[i].born < s.queue.pending[j].born)
    && (forall t, u :: t in s.intakes && u in s.intakes && t < u ==> s.intakes[t].p.born < s.intakes[u].p.born)
    && (forall t, i :: t in s.intakes && 0 <= i < |s.queue.pending| ==>
          s.intakes[t].p.born < s.queue.pending[i].born)
  }

  /** Pending and admitted intents are accepted ones that were not dropped. */
  ghost predicate StandingInv(s: State) {
    && (forall i :: 0 <= i < |s.queue.pending| ==> AcceptedAs(s.queue, s.queue.pending[i]))
    && (forall t :: t in s.intakes ==> AcceptedAs(s.queue, s.intakes[t].p))
  }

  /** Every accepted notification is pending, admitted or dropped, exactly once. */
  ghost predicate CountInv(s: State) {
    |s.queue.accepted| == |s.queue.pending| + |s.intakes| + |s.queue.dropped|
  }

  ghost predicate QueueInv(s: State) {
    AcceptedInv(s) && StandingInv(s) && OrderInv(s) && CountInv(s)
  }

  /** What a queue step does to the queue besides the drains: nothing, drop
      everything, drop the first, or accept a new run first. */
  ghost predicate Dropped(q: Queue, r: Queue) {
    && r.seen == q.seen && r.accepted == q.accepted
    && (|| (r.pending == q.pending && r.dropped == q.dropped)
        || (r.pending == [] && r.dropped == q.dropped + Births(q.pending))
        || (q.pending != [] && r.pending == q.pending[1..] && r.dropped == q.dropped + [q.pending[0].born]))
  }

  ghost predicate SameIntents(s: State, t: State) {
    t.intakes.Keys == s.intakes.Keys && forall k :: k in s.intakes ==> t.intakes[k].p == s.intakes[k].p
  }

  lemma DroppedBirth(q: Queue, r: Queue, b: nat) returns (i: nat)
    requires Dropped(q, r) && b in r.dropped && b !in q.dropped
    ensures i < |q.pending| && b == q.pending[i].born
    ensures r.pending == [] || (i == 0 && r.pending == q.pending[1..])
  {
    if r.dropped == q.dropped + Births(q.pending) && r.pending == [] {
      i :| 0 <= i < |Births(q.pending)| && Births(q.pending)[i] == b;
    } else {
      i := 0;
    }
  }

  lemma DroppedAccepted(s: State, t: State)
    requires AcceptedInv(s) && StandingInv(s) && Dropped(s.queue, t.queue) && s.steps <= t.steps
    ensures AcceptedInv(t)
  {
    forall b | b in t.queue.dropped ensures b in t.queue.accepted {
      if b !in s.queue.dropped {
        var i := DroppedBirth(s.queue, t.queue, b);
        assert AcceptedAs(s.queue, s.queue.pending[i]);
      }
    }
  }

  lemma DroppedStanding(s: State, t: State)
    requires StandingInv(s) && OrderInv(s) && Dropped(s.queue, t.queue) && SameIntents(s, t)
    ensures StandingInv(t)
  {
    var q, r := s.queue, t.queue;
    forall j | 0 <= j < |r.pending| ensures AcceptedAs(r, r.pending[j]) {
      var k := if r.pending == q.pending then j else j + 1;
      assert r.pending[j] == q.pending[k] && AcceptedAs(q, q.pending[k]);
      if r.pending[j].born in r.dropped {
        var i := DroppedBirth(q, r, r.pending[j].born);
      }
    }
    forall k | k in t.intakes ensures AcceptedAs(r, t.intakes[k].p) {
      assert AcceptedAs(q, s.intakes[k].p);
      if t.intakes[k].p.born in r.dropped {
        var i := DroppedBirth(q, r, t.intakes[k].p.born);
      }
    }
  }

  lemma DroppedOrder(s: State, t: State)
    requires OrderInv(s) && Dropped(s.queue, t.queue) && SameIntents(s, t)
    ensures OrderInv(t)
  {
  }

  lemma DroppedCount(s: State, t: State)
    requires CountInv(s) && Dropped(s.queue, t.queue) && SameIntents(s, t)
    ensures CountInv(t)
  {
    assert |t.intakes| == |t.intakes.Keys| && |s.intakes| == |s.intakes.Keys|;
  }

  lemma DroppedKeeps(s: State, t: State)
    requires QueueInv(s) && Dropped(s.queue, t.queue) && SameIntents(s, t) && s.steps <= t.steps
    ensures QueueInv(t)
  {
    DroppedAccepted(s, t);
    DroppedStanding(s, t);
    DroppedOrder(s, t);
    DroppedCount(s, t);
  }

  lemma AcceptKeeps(s: State, p: Pending)
    requires QueueInv(s) && p.runId !in s.queue.seen && p.born == s.steps
    ensures QueueInv(s.(queue := Accept(s.queue, p), steps := s.steps + 1))
  {
    AcceptAccepted(s, p);
    AcceptStanding(s, p);
    AcceptOrder(s, p);
    assert |Accept(s.queue, p).accepted| == |s.queue.accepted| + 1;
  }

  lemma AcceptOrder(s: State, p: Pending)
    requires AcceptedInv(s) && StandingInv(s) && OrderInv(s) && p.born == s.steps
    ensures OrderInv(s.(queue := Accept(s.queue, p), steps := s.steps + 1))
  {
    forall i | 0 <= i < |s.queue.pending| ensures s.queue.pending[i].born < p.born {
      assert AcceptedAs(s.queue, s.queue.pending[i]);
    }
    forall k | k in s.intakes ensures s.intakes[k].p.born < p.born {
      assert AcceptedAs(s.queue, s.intakes[k].p);
    }
  }

  lemma AcceptAccepted(s: State, p: Pending)
    requires AcceptedInv(s) && p.runId !in s.queue.seen && p.born == s.steps
    ensures AcceptedInv(s.(queue := Accept(s.queue, p), steps := s.steps + 1))
  {
  }

  lemma AcceptStanding(s: State, p: Pending)
    requires AcceptedInv(s) && StandingInv(s) && p.born == s.steps
    ensures StandingInv(s.(queue := Accept(s.queue, p), steps := s.steps + 1))
  {
    var r := Accept(s.queue, p);
    forall x | AcceptedAs(s.queue, x) ensures AcceptedAs(r, x) {
    }
    forall i | 0 <= i < |r.pending| ensures AcceptedAs(r, r.pending[i]) {
      if i < |s.queue.pending| {
        assert AcceptedAs(s.queue, s.queue.pending[i]);
      }
    }
  }

  lemma RequestDrainDrops(q: Queue, stopped: bool, closed: bool)
    ensures Dropped(q, RequestDrain(q, stopped, closed))
  {
  }

  lemma UnwindDrops(q: Queue, d: nat, stopped: bool, closed: bool)
    ensures Dropped(q, UnwindDrain(q, d, stopped, closed))
  {
  }

  lemma QueueNotify(c: Config, s: State, run: RunId)
    requires QueueInv(s)
    ensures QueueInv(s.(queue := OnRunCompleted(c, s, run), steps := s.steps + 1))
  {
    var captured := Capture(s.repo, run, s.steps);
    if s.stopped || !c.enabled || !c.hasPlanner || run in s.queue.seen || captured.None? {
      DroppedKeeps(s, s.(steps := s.steps + 1));
    } else {
      var p := captured.value;
      AcceptKeeps(s, p);
      var mid := s.(queue := Accept(s.queue, p), steps := s.steps + 1);
      RequestDrainDrops(mid.queue, s.stopped, s.gate.closed);
      DroppedKeeps(mid, mid.(queue := RequestDrain(mid.queue, s.stopped, s.gate.closed)));
    }
  }

  lemma QueueAdmit(s: State, d: nat)
    requires QueueInv(s) && LeaseInv(s)
    requires d in s.queue.drains && s.queue.pending != [] && CanAcquire(s.gate)
    ensures QueueInv(Admit(s, d).(steps := s.steps + 1))
  {
    AdmitStanding(s, d);
    AdmitOrder(s, d);
    AdmitCount(s, d);
    DroppedKeeps(Admit(s, d), Admit(s, d).(steps := s.steps + 1));
  }

  lemma AdmitCount(s: State, d: nat)
    requires AcceptedInv(s) && CountInv(s) && LeaseInv(s)
    requires d in s.queue.drains && s.queue.pending != [] && CanAcquire(s.gate)
    ensures AcceptedInv(Admit(s, d)) && CountInv(Admit(s, d))
  {
    assert s.gate.nextToken !in s.intakes;
    assert |Admit(s, d).intakes| == |s.intakes| + 1;
  }

  lemma AdmitStanding(s: State, d: nat)
    requires StandingInv(s)
    requires d in s.queue.drains && s.queue.pending != [] && CanAcquire(s.gate)
    ensures StandingInv(Admit(s, d))
  {
    var t := Admit(s, d);
    forall i | 0 <= i < |t.queue.pending| ensures AcceptedAs(t.queue, t.queue.pending[i]) {
      assert AcceptedAs(s.queue, s.queue.pending[i + 1]);
    }
    forall k | k in t.intakes ensures AcceptedAs(t.queue, t.intakes[k].p) {
      if k == s.gate.nextToken {
        assert AcceptedAs(s.queue, s.queue.pending[0]);
      } else {
        assert AcceptedAs(s.queue, s.intakes[k].p);
      }
    }
  }

  lemma AdmitOrder(s: State, d: nat)
    requires OrderInv(s) && LeaseInv(s)
    requires d in s.queue.drains && s.queue.pending != [] && CanAcquire(s.gate)
    ensures OrderInv(Admit(s, d))
  {
    var t := Admit(s, d);
    var token := s.gate.nextToken;
    assert forall i :: 0 <= i < |t.queue.pending| ==> t.queue.pending[i] == s.queue.pending[i + 1];
    forall k | k in s.intakes ensures k < token && s.intakes[k].p.born < s.queue.pending[0].born {
    }
  }

  lemma QueueDrain(c: Config, s: State, d: nat, e: DrainStep)
    requires QueueInv(s) && LeaseInv(s) && DrainEnabled(s, d, e)
    ensures QueueInv(DrainEffect(c, s, d, e).(steps := s.steps + 1))
  {
    if e.Turn? && Admits(c, s) {
      QueueAdmit(s, d);
    } else {
      UnwindDrops(s.queue, d, s.stopped, s.gate.closed);
      DroppedKeeps(s, DrainEffect(c, s, d, e).(steps := s.steps + 1));
    }
  }

  lemma QueueIntake(c: Config, s: State, token: nat, e: IntakeStep)
    requires QueueInv(s) && token in s.intakes && IntakeEnabled(s.intakes[token], e)
    ensures QueueInv(IntakeEffect(c, s, token, e).(steps := s.steps + 1))
  {
    var i := s.intakes[token];
    AdvanceKeepsIntent(c, Fence(c, s, i.aborted, i.p), token, i, s.effects, e);
    DroppedKeeps(s, IntakeEffect(c, s, token, e).(steps := s.steps + 1));
  }

  lemma OutsideFrame(s: State, e: OutsideStep)
    requires OutsideEnabled(s, e)
    ensures var t := OutsideEffect(s, e);
            t == s.(repo := t.repo, gate := t.gate, owed := t.owed) && Evolves(s.repo, t.repo)
  {
  }

  lemma QueueInvalidate(s: State)
    requires QueueInv(s)
    ensures QueueInv(NotifyForeground(s).(steps := s.steps + 1))
    ensures QueueInv(StopService(s).(steps := s.steps + 1))
  {
    DroppedKeeps(s, NotifyForeground(s).(steps := s.steps + 1));
    DroppedKeeps(s, StopService(s).(steps := s.steps + 1));
  }

  lemma QueueStep(c: Config, s: State, e: Step)
    requires QueueInv(s) && LeaseInv(s) && Enabled(s, e)
    ensures QueueInv(Effect(c, s, e).(steps := s.steps + 1))
  {
    match e
    case Notify(run) => QueueNotify(c, s, run);
    case OfDrain(d, n) => QueueDrain(c, s, d, n);
    case OfIntake(t, i) => QueueIntake(c, s, t, i);
    case Wake =>
      RequestDrainDrops(s.queue, s.stopped, s.gate.closed);
      DroppedKeeps(s, Effect(c, s, e).(steps := s.steps + 1));
    case Outside(o) =>
      OutsideFrame(s, o);
      DroppedKeeps(s, OutsideEffect(s, o).(steps := s.steps + 1));
    case Stop => QueueInvalidate(s);
    case Foreground => QueueInvalidate(s);
    case StopSettled => DroppedKeeps(s, s.(settled := true, steps := s.steps + 1));
  }

  // ----- drains -----

  /** `drainTask` names a running drain, and a requested wake has a drain to see it. */
  ghost predicate DrainInv(s: State) {
    && (forall d :: d in s.queue.drains ==> d < s.queue.nextDrain)
    && (s.queue.drainTask.Some? ==>
          s.queue.drainTask.value in s.queue.drains && s.queue.drains[s.queue.drainTask.value].published)
    && (s.queue.wakeRequested ==> s.queue.drains != map[])
  }

  ghost predicate SomeDrainRuns(q: Queue) {
    exists d :: d in q.drains && !q.drains[d].pc.Unwinding?
  }

  /** The part that makes no wake get lost: with work queued for a live service whose
      wake is registered, either the slot is held, or a call of the wake is owed, or
      a drain will look at the queue again. */
  ghost predicate WakeInv(s: State) {
    s.queue.pending != [] && !s.stopped && OWN_WAKE in s.gate.wakes ==>
      s.gate.holder.Some? || s.owed > 0 || s.queue.wakeRequested || SomeDrainRuns(s.queue)
  }

  lemma RequestDrainKeeps(q: Queue, stopped: bool, closed: bool)
    requires forall d :: d in q.drains ==> d < q.nextDrain
    requires q.drainTask.Some? ==> q.drainTask.value in q.drains && q.drains[q.drainTask.value].published
    requires q.wakeRequested ==> q.drains != map[]
    ensures var r := RequestDrain(q, stopped, closed);
            && (forall d :: d in r.drains ==> d < r.nextDrain)
            && (r.drainTask.Some? ==> r.drainTask.value in r.drains && r.drains[r.drainTask.value].published)
            && (r.wakeRequested ==> r.drains != map[])
            && (!stopped && r.pending != [] ==> r.wakeRequested || SomeDrainRuns(r))
  {
    var r := RequestDrain(q, stopped, closed);
    if !stopped && !closed && q.drainTask.None? && q.pending != [] {
      assert q.nextDrain in r.drains && r.drains[q.nextDrain].pc.Looping?;
    }
  }

  lemma DrainNotify(c: Config, s: State, run: RunId)
    requires DrainInv(s) && WakeInv(s)
    ensures var t := s.(queue := OnRunCompleted(c, s, run)); DrainInv(t) && WakeInv(t)
  {
    var captured := Capture(s.repo, run, s.steps);
    if captured.Some? {
      RequestDrainKeeps(Accept(s.queue, captured.value), s.stopped, s.gate.closed);
    }
  }

  lemma DrainTurn(c: Config, s: State, d: nat)
    requires DrainInv(s) && WakeInv(s) && DrainEnabled(s, d, Turn)
    ensures var t := DrainEffect(c, s, d, Turn); DrainInv(t) && WakeInv(t)
  {
    var t := DrainEffect(c, s, d, Turn);
    assert d in t.queue.drains;
    if Admits(c, s) {
      assert t.gate.holder.Some?;
    } else if !s.stopped && s.queue.pending != [] && !s.gate.closed && Fence(c, s, false, s.queue.pending[0]).None? {
      assert t.queue.drains[d].pc.Looping?;
    }
  }

  lemma DrainUnwind(s: State, d: nat)
    requires DrainInv(s) && WakeInv(s) && DrainEnabled(s, d, Unwind)
    ensures var t := s.(queue := UnwindDrain(s.queue, d, s.stopped, s.gate.closed)); DrainInv(t) && WakeInv(t)
  {
    var r := s.queue.(drains := map e | e in s.queue.drains && e != d :: s.queue.drains[e], drainTask := None);
    if SomeDrainRuns(s.queue) {
      var e :| e in s.queue.drains && !s.queue.drains[e].pc.Unwinding?;
      assert e in r.drains && !r.drains[e].pc.Unwinding?;
    }
    RequestDrainKeeps(r.(wakeRequested := false), s.stopped, s.gate.closed);
  }

  lemma DrainOther(c: Config, s: State, d: nat, e: DrainStep)
    requires DrainInv(s) && WakeInv(s) && DrainEnabled(s, d, e) && (e.Publish? || e.Resume?)
    ensures var t := DrainEffect(c, s, d, e); DrainInv(t) && WakeInv(t)
  {
    var t := DrainEffect(c, s, d, e);
    assert d in t.queue.drains;
    if SomeDrainRuns(s.queue) {
      var x :| x in s.queue.drains && !s.queue.drains[x].pc.Unwinding?;
      assert x in t.queue.drains && !t.queue.drains[x].pc.Unwinding?;
    }
  }

  lemma DrainSteps(c: Config, s: State, e: Step)
    requires DrainInv(s) && WakeInv(s) && LeaseInv(s) && Enabled(s, e)
    ensures DrainInv(Effect(c, s, e)) && WakeInv(Effect(c, s, e))
  {
    match e
    case Notify(run) => DrainNotify(c, s, run);
    case Wake => RequestDrainKeeps(s.queue, s.stopped, s.gate.closed);
    case OfDrain(d, n) => DrainDrain(c, s, d, n);
    case OfIntake(t, i) => DrainIntake(c, s, t, i);
    case Outside(o) => DrainOutside(s, o);
    case _ =>
  }

  lemma DrainDrain(c: Config, s: State, d: nat, e: DrainStep)
    requires DrainInv(s) && WakeInv(s) && DrainEnabled(s, d, e)
    ensures var t := DrainEffect(c, s, d, e); DrainInv(t) && WakeInv(t)
  {
    match e
    case Turn => DrainTurn(c, s, d);
    case Unwind => DrainUnwind(s, d);
    case _ => DrainOther(c, s, d, e);
  }

  lemma DrainIntake(c: Config, s: State, token: nat, e: IntakeStep)
    requires DrainInv(s) && WakeInv(s) && LeaseInv(s) && token in s.intakes && IntakeEnabled(s.intakes[token], e)
    ensures var t := IntakeEffect(c, s, token, e); DrainInv(t) && WakeInv(t)
  {
    LeaseIntake(c, s, token, e);
    assert IntakeEffect(c, s, token, e).queue == s.queue;
  }

  lemma DrainOutside(s: State, e: OutsideStep)
    requires DrainInv(s) && WakeInv(s) && OutsideEnabled(s, e)
    ensures DrainInv(OutsideEffect(s, e)) && WakeInv(OutsideEffect(s, e))
  {
  }

  // ----- stop -----

  /** After `stop` nothing is queued, the wake is gone and every active intake is
      aborted; once the stop promise settled nothing is active. */
  ghost predicate StopInv(s: State) {
    && (s.stopped ==>
          && s.queue.pending == [] && OWN_WAKE !in s.gate.wakes
          && forall t :: t in s.intakes && Active(s.intakes[t]) ==> s.intakes[t].aborted)
    && (s.settled ==> s.stopped && forall t :: t in s.intakes ==> !Active(s.intakes[t]))
  }

  lemma StopIntake(c: Config, s: State, token: nat, e: IntakeStep)
    requires StopInv(s) && token in s.intakes && IntakeEnabled(s.intakes[token], e)
    ensures StopInv(IntakeEffect(c, s, token, e))
  {
    var i := s.intakes[token];
    AdvanceKeepsIntent(c, Fence(c, s, i.aborted, i.p), token, i, s.effects, e);
  }

  lemma StopStep(c: Config, s: State, e: Step)
    requires StopInv(s) && Enabled(s, e)
    ensures StopInv(Effect(c, s, e))
  {
    match e
    case OfIntake(t, i) => StopIntake(c, s, t, i);
    case OfDrain(d, n) => StopDrain(c, s, d, n);
    case Outside(o) => StopOutside(s, o);
    case _ =>
  }

  lemma StopDrain(c: Config, s: State, d: nat, e: DrainStep)
    requires StopInv(s) && DrainEnabled(s, d, e)
    ensures StopInv(DrainEffect(c, s, d, e))
  {
  }

  lemma StopOutside(s: State, e: OutsideStep)
    requires StopInv(s) && OutsideEnabled(s, e)
    ensures StopInv(OutsideEffect(s, e))
  {
  }

  // ----- leases and materializations -----

  /** The call has been made, or can never be made any more. */
  predicate BodyOver(i: Intake) {
    i.phase.Finishing? || i.phase.LeaseFreed? || i.phase.Done?
  }

  /** Of every intake: its lease is given back exactly once, by its `finally`; it
      creates at most one plan and makes at most one grant call; what it prepares is,
      from the end of its body on, either kept or discarded, exactly once. */
  ghost predicate EffectsOf(s: State, t: nat) {
    && s.effects.freed[t] == One(t in s.intakes && !HoldsLease(s.intakes[t]))
    && s.effects.planned[t] <= One(t in s.intakes && !s.intakes[t].phase.Starting? && !s.intakes[t].phase.Proposing?)
    && s.effects.prepared[t] <= One(t in s.intakes && (s.intakes[t].phase.Ready? || BodyOver(s.intakes[t])))
    && s.effects.granted[t] <= One(t in s.intakes && BodyOver(s.intakes[t]))
    && s.effects.kept[t] <= s.effects.granted[t] <= s.effects.prepared[t] <= s.effects.planned[t]
    && s.effects.prepared[t]
       == s.effects.kept[t] + s.effects.discarded[t] + One(t in s.intakes && s.intakes[t].phase.Ready?)
    && (t in s.intakes && (s.intakes[t].phase.Planned? || s.intakes[t].phase.Preparing?) ==> s.effects.planned[t] == 1)
  }

  ghost predicate EffectsInv(s: State) {
    forall t: nat {:trigger s.effects.freed[t]} :: EffectsOf(s, t)
  }

  /** The same, of one intake and its own counts. */
  lemma ProposeEffects(c: Config, s: State, t: nat, reply: PlanReply)
    requires t in s.intakes && s.intakes[t].phase.Proposing? && EffectsOf(s, t)
    ensures EffectsOf(IntakeEffect(c, s, t, Propose(reply)), t)
  {
  }

  lemma AuthorizeEffects(c: Config, s: State, t: nat, verdict: Verdict)
    requires t in s.intakes && s.intakes[t].phase.Ready? && EffectsOf(s, t)
    ensures EffectsOf(IntakeEffect(c, s, t, Authorize(verdict)), t)
  {
  }

  lemma OtherEffects(c: Config, s: State, t: nat, e: IntakeStep)
    requires t in s.intakes && IntakeEnabled(s.intakes[t], e) && EffectsOf(s, t)
    requires !e.Propose? && !e.Authorize?
    ensures EffectsOf(IntakeEffect(c, s, t, e), t)
  {
  }

  lemma AdvanceLeavesOthers(c: Config, s: State, token: nat, e: IntakeStep, t: nat)
    requires token in s.intakes && IntakeEnabled(s.intakes[token], e) && t != token && EffectsOf(s, t)
    ensures EffectsOf(IntakeEffect(c, s, token, e), t)
  {
    var i := s.intakes[token];
    var f := Advance(c, Fence(c, s, i.aborted, i.p), token, i, s.effects, e).effects;
    assert f.planned[t] == s.effects.planned[t] && f.prepared[t] == s.effects.prepared[t]
        && f.granted[t] == s.effects.granted[t] && f.kept[t] == s.effects.kept[t]
        && f.discarded[t] == s.effects.discarded[t] && f.freed[t] == s.effects.freed[t];
  }

  lemma EffectsIntake(c: Config, s: State, token: nat, e: IntakeStep, t: nat)
    requires token in s.intakes && IntakeEnabled(s.intakes[token], e) && EffectsOf(s, t)
    ensures EffectsOf(IntakeEffect(c, s, token, e), t)
  {
    if t != token {
      AdvanceLeavesOthers(c, s, token, e, t);
    } else {
      match e
      case Propose(reply) => ProposeEffects(c, s, t, reply);
      case Authorize(verdict) => AuthorizeEffects(c, s, t, verdict);
      case _ => OtherEffects(c, s, t, e);
    }
  }

  lemma EffectsDrain(c: Config, s: State, d: nat, e: DrainStep, t: nat)
    requires DrainEnabled(s, d, e) && LeaseInv(s) && EffectsOf(s, t)
    ensures EffectsOf(DrainEffect(c, s, d, e), t)
  {
  }

  lemma EffectsAt(c: Config, s: State, e: Step, t: nat)
    requires EffectsOf(s, t) && LeaseInv(s) && Enabled(s, e)
    ensures EffectsOf(Effect(c, s, e), t)
  {
    match e
    case OfIntake(token, i) => EffectsIntake(c, s, token, i, t);
    case OfDrain(d, n) => EffectsDrain(c, s, d, n, t);
    case Outside(o) => OutsideFrame(s, o);
    case Foreground => EffectsInvalidate(s, t);
    case Stop => EffectsInvalidate(s, t);
    case _ =>
  }

  lemma EffectsInvalidate(s: State, t: nat)
    requires EffectsOf(s, t)
    ensures EffectsOf(NotifyForeground(s), t) && EffectsOf(StopService(s), t)
  {
    var i := AbortActive(s.intakes);
    assert t in i <==> t in s.intakes;
    assert t in i ==> i[t].phase == s.intakes[t].phase;
  }

  lemma EffectsStep(c: Config, s: State, e: Step)
    requires EffectsInv(s) && LeaseInv(s) && Enabled(s, e)
    ensures EffectsInv(Effect(c, s, e))
  {
    var t := Effect(c, s, e);
    forall k: nat ensures EffectsOf(t, k) {
      assert s.effects.freed[k] >= 0;
      EffectsAt(c, s, e, k);
    }
  }

  // ----- every reachable state -----

  ghost predicate Inv(s: State) {
    && LeaseInv(s) && QueueInv(s) && DrainInv(s) && WakeInv(s) && StopInv(s) && EffectsInv(s) && Keyed(s.repo)
  }

  lemma RepoFrame(c: Config, s: State, e: Step)
    requires Enabled(s, e)
    ensures Evolves(s.repo, Effect(c, s, e).repo)
  {
    match e
    case Outside(o) => OutsideFrame(s, o);
    case _ =>
  }

  /** Steps only counts; no part of the invariant but the bound on births reads it. */
  lemma CountingKeeps(s: State)
    requires Inv(s)
    ensures Inv(s.(steps := s.steps + 1))
  {
    var t := s.(steps := s.steps + 1);
    DroppedKeeps(s, t);
    assert EffectsInv(t) by {
      forall k: nat ensures EffectsOf(t, k) {
        assert s.effects.freed[k] >= 0;
      }
    }
  }

  lemma NextKeeps(c: Config, s: State, e: Step)
    requires Inv(s)
    ensures Inv(Next(c, s, e))
  {
    if Enabled(s, e) {
      EffectKeeps(c, s, e);
    } else {
      CountingKeeps(s);
    }
  }

  lemma EffectKeeps(c: Config, s: State, e: Step)
    requires Inv(s) && Enabled(s, e)
    ensures Inv(Tick(Effect(c, s, e)))
  {
    var t := Effect(c, s, e);
    LeaseStep(c, s, e);
    QueueStep(c, s, e);
    DrainSteps(c, s, e);
    StopStep(c, s, e);
    EffectsStep(c, s, e);
    RepoFrame(c, s, e);
    SameSteps(c, s, e);
    AfterStep(t, Tick(t));
  }

  lemma SameSteps(c: Config, s: State, e: Step)
    requires Enabled(s, e)
    ensures Effect(c, s, e).steps == s.steps
  {
    match e
    case OfDrain(d, n) =>
    case OfIntake(t, i) =>
    case Outside(o) => OutsideFrame(s, o);
    case _ =>
  }

  lemma AfterStep(t: State, u: State)
    requires u == t.(steps := u.steps)
    requires LeaseInv(t) && DrainInv(t) && WakeInv(t) && StopInv(t) && EffectsInv(t) && Keyed(t.repo)
    requires QueueInv(u)
    ensures Inv(u)
  {
    forall k: nat ensures EffectsOf(u, k) {
      assert t.effects.freed[k] >= 0;
    }
  }

  /** The invariant holds after every run of a new service. */
  lemma {:induction false} AlwaysInv(c: Config, s: State, es: seq<Step>)
    requires Initial(s)
    ensures Inv(Run(c, s, es)) && Run(c, s, es).steps == |es|
  {
    if es != [] {
      AlwaysInv(c, s, es[..|es| - 1]);
      NextKeeps(c, Run(c, s, es[..|es| - 1]), es[|es| - 1]);
      StepCounts(c, Run(c, s, es[..|es| - 1]), es[|es| - 1]);
    } else {
      assert EffectsInv(s) by {
        forall k: nat ensures EffectsOf(s, k) {
        }
      }
    }
  }

  lemma StepCounts(c: Config, s: State, e: Step)
    ensures Next(c, s, e).steps == s.steps + 1
  {
  }
}
