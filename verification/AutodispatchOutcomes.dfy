/**
 What the single steps of the auto-dispatch protocol come to over whole runs: why an intent
 leaves the queue, what is planned, prepared and kept, and how the intakes keep the storage
 bound of the retention store.
 */
module AutodispatchOutcomes {
  import opened Options
  import opened Sequences
  import opened Kernel
  import opened BackgroundGate
  import opened Autodispatch
  import opened AutodispatchSafety
  import opened AutodispatchRuns
  import opened AutodispatchSteps
  import R = Retention

  // ----- why an intent leaves the queue -----

  /** The step drops the intent at position `i`: its own fence fails in a turn that looks at it,
      the service finds the gate closed, or there is foreground activity or a stop. */
  ghost predicate Drops(c: Config, s: State, e: Step, i: nat)
    requires i < |s.queue.pending|
  {
    match e
    case OfDrain(d, n) =>
      && d in s.queue.drains
      && var drain := s.queue.drains[d];
         || (n.Turn? && drain.pc.Looping?
             && (s.gate.closed || (i == 0 && !PassesNow(c, s, false, s.queue.pending[0]))))
         || (n.Unwind? && drain.published && drain.pc.Unwinding? && s.gate.closed)
    case Wake => s.owed > 0 && s.gate.closed
    case Notify(run) => s.gate.closed && exists p :: Accepts(c, s, run, p)
    case Foreground => true
    case Stop => true
    case _ => false
  }

  /** The step admits the intent at position `i`: it is the first, its fence passes, and the open
      gate's slot is free. */
  ghost predicate Takes(c: Config, s: State, e: Step, i: nat)
    requires i < |s.queue.pending|
  {
    && i == 0 && e.OfDrain? && e.d.Turn? && e.drain in s.queue.drains && s.queue.drains[e.drain].pc.Looping?
    && PassesNow(c, s, false, s.queue.pending[0]) && s.gate.holder.None?
  }

  lemma BirthOf(s: State, i: nat)
    requires QueueInv(s) && i < |s.queue.pending|
    ensures s.queue.pending[i].born !in s.queue.dropped
    ensures forall j :: 0 <= j < |s.queue.pending| && s.queue.pending[j].born == s.queue.pending[i].born ==> j == i
    ensures forall k :: k in s.intakes ==> s.intakes[k].p.born != s.queue.pending[i].born
  {
    assert AcceptedAs(s.queue, s.queue.pending[i]);
  }

  lemma EmptiedDrops(q: Queue, added: seq<Pending>, r: Queue, i: nat)
    requires Emptied(q, added, r) && i < |q.pending|
    ensures q.pending[i].born in r.dropped
  {
    assert r.dropped[|q.dropped| + i] == (q.pending + added)[i].born;
  }

  lemma QueuedInTurn(c: Config, s: State, d: nat, i: nat)
    requires Inv(s) && i < |s.queue.pending|
    requires d in s.queue.drains && s.queue.drains[d].pc.Looping?
    ensures var t, e := Next(c, s, OfDrain(d, Turn)), OfDrain(d, Turn);
            && (s.queue.pending[i].born in t.queue.dropped <==> Drops(c, s, e, i))
            && (s.queue.pending[i] in t.queue.pending <==> !Drops(c, s, e, i) && !Takes(c, s, e, i))
  {
    BirthOf(s, i);
    var t := Next(c, s, OfDrain(d, Turn));
    if s.gate.closed {
      LastTurnExact(c, s, d);
      EmptiedDrops(s.queue.(wakeRequested := false), [], t.queue.(wakeRequested := false), i);
    } else {
      TurnExact(c, s, d);
      var rest := s.queue.pending[1..];
      if i > 0 {
        assert rest[i - 1] == s.queue.pending[i];
      }
    }
  }

  lemma QueuedInDrain(c: Config, s: State, d: nat, n: DrainStep, i: nat)
    requires Inv(s) && i < |s.queue.pending|
    ensures var t, e := Next(c, s, OfDrain(d, n)), OfDrain(d, n);
            && (s.queue.pending[i].born in t.queue.dropped <==> Drops(c, s, e, i))
            && (s.queue.pending[i] in t.queue.pending <==> !Drops(c, s, e, i) && !Takes(c, s, e, i))
  {
    BirthOf(s, i);
    if DrainEnabled(s, d, n) {
      match n
      case Turn => QueuedInTurn(c, s, d, i);
      case Unwind =>
        UnwindExact(c, s, d);
        if s.gate.closed {
          EmptiedDrops(s.queue, [], Next(c, s, OfDrain(d, n)).queue, i);
        }
      case _ => assert Next(c, s, OfDrain(d, n)).queue.pending == s.queue.pending;
    }
  }

  lemma QueuedInNotify(c: Config, s: State, run: RunId, i: nat)
    requires Inv(s) && i < |s.queue.pending|
    ensures var t, e := Next(c, s, Notify(run)), Notify(run);
            && (s.queue.pending[i].born in t.queue.dropped <==> Drops(c, s, e, i))
            && (s.queue.pending[i] in t.queue.pending <==> !Drops(c, s, e, i))
  {
    BirthOf(s, i);
    if p :| Accepts(c, s, run, p) {
      NotifyExact(c, s, run, p);
      if s.gate.closed {
        EmptiedDrops(s.queue, [p], Next(c, s, Notify(run)).queue, i);
      } else {
        assert (s.queue.pending + [p])[i] == s.queue.pending[i];
      }
    } else {
      NotifyExact(c, s, run, s.queue.pending[i]);
    }
  }

  /** In every reachable state and over any step, a queued intent is dropped exactly for one of
      those causes, leaves the queue admitted exactly if it is taken, and otherwise stays queued. */
  lemma QueuedIntentGoes(c: Config, s: State, e: Step, i: nat)
    requires Inv(s) && i < |s.queue.pending|
    ensures s.queue.pending[i].born in Next(c, s, e).queue.dropped <==> Drops(c, s, e, i)
    ensures s.queue.pending[i] in Next(c, s, e).queue.pending <==> !Drops(c, s, e, i) && !Takes(c, s, e, i)
  {
    BirthOf(s, i);
    var t := Next(c, s, e);
    match e
    case OfDrain(d, n) => QueuedInDrain(c, s, d, n, i);
    case Notify(run) => QueuedInNotify(c, s, run, i);
    case Wake =>
      if s.owed > 0 {
        WakeStepExact(c, s);
        if s.gate.closed {
          EmptiedDrops(s.queue, [], t.queue, i);
        }
      }
    case Foreground =>
      InvalidateExact(c, s, e);
      EmptiedDrops(s.queue, [], t.queue, i);
    case Stop =>
      InvalidateExact(c, s, e);
      EmptiedDrops(s.queue, [], t.queue, i);
    case Outside(o) =>
      if OutsideEnabled(s, o) {
        OutsideFrame(s, o);
      }
    case _ => assert t.queue == s.queue;
  }

  /** Step `m` of the run dropped the intent accepted at step `b`. */
  ghost predicate DroppedAt(c: Config, s: State, es: seq<Step>, m: nat, b: nat)
    requires m < |es|
  {
    var t := Run(c, s, es[..m]);
    || (exists i: nat :: i < |t.queue.pending| && t.queue.pending[i].born == b && Drops(c, t, es[m], i))
    || (m == b && es[m].Notify? && t.gate.closed && exists p :: Accepts(c, t, es[m].run, p))
  }

  /** Whatever a step drops was queued, or is the run it notifies of under a closed gate. */
  lemma DropsAt(c: Config, s: State, e: Step, b: nat)
    requires b in Next(c, s, e).queue.dropped && b !in s.queue.dropped
    ensures || (exists i: nat :: i < |s.queue.pending| && s.queue.pending[i].born == b)
            || (b == s.steps && e.Notify? && s.gate.closed && exists p :: Accepts(c, s, e.run, p))
  {
    var q, r := s.queue, Next(c, s, e).queue;
    if e.Notify? {
      CapturesExact(s.repo, e.run, s.steps);
      var mid := Accept(q, Capture(s.repo, e.run, s.steps).value);
      assert Accepts(c, s, e.run, mid.pending[|q.pending|]);
      var i := DroppedBirth(mid, r, b);
      assert i < |q.pending| ==> q.pending[i].born == b;
    } else {
      if e.OfDrain? {
        DrainDrops(c, s, e.drain, e.d);
      }
      if r.dropped == q.dropped + Births(q.pending) {
        var i: nat :| i < |Births(q.pending)| && Births(q.pending)[i] == b;
        assert q.pending[i].born == b;
      } else {
        assert q.pending[0].born == b;
      }
    }
  }

  lemma DrainDrops(c: Config, s: State, d: nat, n: DrainStep)
    requires DrainEnabled(s, d, n)
    ensures var q, r := s.queue, Next(c, s, OfDrain(d, n)).queue;
            || r.dropped == q.dropped || r.dropped == q.dropped + Births(q.pending)
            || (q.pending != [] && r.dropped == q.dropped + [q.pending[0].born])
  {
    UnwindDrops(s.queue, d, s.stopped, s.gate.closed);
  }

  /** Over a whole run, every accepted intent that was dropped has such a cause at some step. */
  lemma {:induction false} DroppedHadCause(c: Config, s: State, es: seq<Step>, b: nat) returns (m: nat)
    requires Initial(s) && b in Run(c, s, es).queue.dropped
    ensures m < |es| && DroppedAt(c, s, es, m, b)
  {
    var n := |es| - 1;
    var before := Run(c, s, es[..n]);
    if b in before.queue.dropped {
      m := DroppedHadCause(c, s, es[..n], b);
      assert es[..n][..m] == es[..m];
    } else {
      m := n;
      AlwaysInv(c, s, es[..n]);
      DropsAt(c, before, es[n], b);
      if i: nat :| i < |before.queue.pending| && before.queue.pending[i].born == b {
        QueuedIntentGoes(c, before, es[n], i);
      }
    }
  }

  // ----- what is planned, prepared, granted and kept -----

  datatype Act = ToPlan | ToPrepare | ToGrant | ToKeep | ToDiscard

  function CountOf(f: Effects, k: nat, a: Act): nat {
    match a
    case ToPlan => f.planned[k]
    case ToPrepare => f.prepared[k]
    case ToGrant => f.granted[k]
    case ToKeep => f.kept[k]
    case ToDiscard => f.discarded[k]
  }

  /** The intake of `k` is about to create a plan for this operation: the config allows it, and so
      does the policy the intent still stands under. */
  ghost predicate MayPlan(c: Config, s: State, k: nat, operation: Operation) {
    && k in s.intakes && s.intakes[k].phase.Proposing? && operation in c.operations
    && exists policy :: Passes(c, s, s.intakes[k].aborted, s.intakes[k].p, policy) && operation in policy.operations
  }

  ghost predicate MayGrant(c: Config, s: State, k: nat) {
    && k in s.intakes && s.intakes[k].phase.Ready?
    && PassesNow(c, s, s.intakes[k].aborted, s.intakes[k].p)
  }

  /** When the intake of `k` does what. */
  ghost predicate Happens(c: Config, s: State, e: Step, k: nat, a: Act) {
    && e.OfIntake? && e.token == k && k in s.intakes
    && match a
       case ToPlan => e.i.Propose? && e.i.reply.Proposal? && MayPlan(c, s, k, e.i.reply.operation)
       case ToPrepare => e.i == PrepareSettled(true) && s.intakes[k].phase.Preparing?
       case ToGrant => e.i.Authorize? && MayGrant(c, s, k)
       case ToKeep => e.i.Authorize? && MayGrant(c, s, k) && Answered(e.i.verdict)
       case ToDiscard =>
         e.i.Authorize? && s.intakes[k].phase.Ready? && !(MayGrant(c, s, k) && Answered(e.i.verdict))
  }

  lemma CountsOf(f: Effects, k: nat, did: Did, a: Act)
    ensures CountOf(Counted(f, k, did), k, a) == CountOf(f, k, a) +
            One(match a
                case ToPlan => did.planned
                case ToPrepare => did.prepared
                case ToGrant => did.granted
                case ToKeep => did.kept
                case ToDiscard => did.discarded)
  {
  }

  lemma GrantCounts(c: Config, s: State, k: nat, verdict: Verdict, a: Act)
    requires k in s.intakes && s.intakes[k].phase.Ready?
    ensures CountOf(Next(c, s, OfIntake(k, Authorize(verdict))).effects, k, a)
            == CountOf(s.effects, k, a) + One(Happens(c, s, OfIntake(k, Authorize(verdict)), k, a))
  {
    var asked := PassesNow(c, s, s.intakes[k].aborted, s.intakes[k].p);
    var kept := asked && Answered(verdict);
    AuthorizeExact(c, s, k, verdict);
    CountsOf(s.effects, k, NOTHING.(granted := asked, kept := kept, discarded := !kept), a);
  }

  lemma ActCounts(c: Config, s: State, k: nat, x: IntakeStep, a: Act)
    requires k in s.intakes && IntakeEnabled(s.intakes[k], x)
    ensures CountOf(Next(c, s, OfIntake(k, x)).effects, k, a)
            == CountOf(s.effects, k, a) + One(Happens(c, s, OfIntake(k, x), k, a))
  {
    match x
    case Propose(reply) => PlanCounts(c, s, k, reply, a);
    case Authorize(verdict) => GrantCounts(c, s, k, verdict, a);
    case _ => OtherCounts(c, s, k, x, a);
  }

  lemma OtherCounts(c: Config, s: State, k: nat, x: IntakeStep, a: Act)
    requires k in s.intakes && IntakeEnabled(s.intakes[k], x) && !x.Propose? && !x.Authorize?
    ensures CountOf(Next(c, s, OfIntake(k, x)).effects, k, a)
            == CountOf(s.effects, k, a) + One(Happens(c, s, OfIntake(k, x), k, a))
  {
  }

  lemma PlanCounts(c: Config, s: State, k: nat, reply: PlanReply, a: Act)
    requires k in s.intakes && s.intakes[k].phase.Proposing?
    ensures CountOf(Next(c, s, OfIntake(k, Propose(reply))).effects, k, a)
            == CountOf(s.effects, k, a) + One(Happens(c, s, OfIntake(k, Propose(reply)), k, a))
  {
    var i := s.intakes[k];
    PassesExact(c, s, i.aborted, i.p);
    if policy :| Passes(c, s, i.aborted, i.p, policy) {
      ProposeExact(c, s, k, reply, policy);
    } else {
      ProposeExact(c, s, k, reply, Policy("", 0, true, Never, {}));
    }
  }

  lemma StepActs(c: Config, s: State, e: Step, k: nat, a: Act)
    ensures CountOf(Next(c, s, e).effects, k, a) == CountOf(s.effects, k, a) + One(Happens(c, s, e, k, a))
  {
    if Enabled(s, e) {
      match e
      case OfIntake(t, x) =>
        if t == k {
          ActCounts(c, s, k, x, a);
        } else {
          OtherActs(c, s, t, x, k, a);
        }
      case OfDrain(d, n) => assert DrainEffect(c, s, d, n).effects == s.effects;
      case Outside(o) => OutsideFrame(s, o);
      case _ =>
    }
  }

  lemma OtherActs(c: Config, s: State, t: nat, x: IntakeStep, k: nat, a: Act)
    requires t in s.intakes && IntakeEnabled(s.intakes[t], x) && t != k
    ensures CountOf(Next(c, s, OfIntake(t, x)).effects, k, a) == CountOf(s.effects, k, a)
  {
  }

  /** The intake of `k` did it at step `m` of the run. */
  ghost predicate DidAt(c: Config, s: State, es: seq<Step>, m: nat, k: nat, a: Act) {
    m < |es| && Happens(c, Run(c, s, es[..m]), es[m], k, a)
  }

  lemma DidBefore(c: Config, s: State, es: seq<Step>, k: nat, a: Act)
    requires es != []
    ensures var n := |es| - 1;
            (exists m: nat :: DidAt(c, s, es, m, k, a)) <==>
            (exists m: nat :: DidAt(c, s, es[..n], m, k, a)) || Happens(c, Run(c, s, es[..n]), es[n], k, a)
  {
    var n := |es| - 1;
    forall m: nat | m < n ensures DidAt(c, s, es[..n], m, k, a) <==> DidAt(c, s, es, m, k, a) {
      assert es[..n][..m] == es[..m];
    }
    assert Happens(c, Run(c, s, es[..n]), es[n], k, a) <==> DidAt(c, s, es, n, k, a);
  }

  lemma {:induction false} CountedIffDone(c: Config, s: State, es: seq<Step>, k: nat, a: Act)
    requires Initial(s)
    ensures CountOf(Run(c, s, es).effects, k, a) > 0 <==> exists m: nat :: DidAt(c, s, es, m, k, a)
  {
    if es != [] {
      var n := |es| - 1;
      CountedIffDone(c, s, es[..n], k, a);
      StepActs(c, Run(c, s, es[..n]), es[n], k, a);
      DidBefore(c, s, es, k, a);
    }
  }

  /** When an intake that prepared something is over, the prepared bytes were kept exactly if at
      some step its fence passed, the grant was asked for and the answer was an execution that is
      authorized, reserved or already there; otherwise they were discarded. */
  lemma KeptIffAnswered(c: Config, s: State, es: seq<Step>, k: nat)
    requires Initial(s) && k in Run(c, s, es).intakes && Run(c, s, es).intakes[k].phase.Done?
    requires Run(c, s, es).effects.prepared[k] > 0
    ensures var f := Run(c, s, es).effects;
            && (f.kept[k] == 1 <==> exists m: nat :: DidAt(c, s, es, m, k, ToKeep))
            && (f.discarded[k] == 1 <==> !exists m: nat :: DidAt(c, s, es, m, k, ToKeep))
  {
    CountedIffDone(c, s, es, k, ToKeep);
    FinishedIntakesAreSettled(c, s, es, k);
  }

  /** Over a whole run an intake created a plan exactly if at some step the planner proposed an
      operation that the config allows and that the policy its intent stood under allows. */
  lemma PlannedIffAllowed(c: Config, s: State, es: seq<Step>, k: nat)
    requires Initial(s)
    ensures Run(c, s, es).effects.planned[k] == 1 <==> exists m: nat :: DidAt(c, s, es, m, k, ToPlan)
  {
    CountedIffDone(c, s, es, k, ToPlan);
    AlwaysInv(c, s, es);
    assert Run(c, s, es).effects.freed[k] >= 0;
  }

  // ----- room -----

  /** The room check of the intake of `k` passes: fewer jobs than the budget are retained, and its
      fence passes. */
  ghost predicate HasRoom(c: Config, s: State, e: Step, k: nat) {
    && e.OfIntake? && e.token == k && e.i.CheckRoom? && e.i.retained < R.MAX_RETAINED
    && k in s.intakes && s.intakes[k].phase.Planned? && PassesNow(c, s, s.intakes[k].aborted, s.intakes[k].p)
  }

  ghost predicate UnderWay(s: State, k: nat) {
    || (k in s.intakes && (s.intakes[k].phase.Preparing? || s.intakes[k].phase.Ready?))
    || s.effects.prepared[k] > 0
  }

  lemma OthersGoOn(c: Config, s: State, e: Step, k: nat)
    requires !(e.OfIntake? && e.token == k && Enabled(s, e))
    ensures k in Next(c, s, e).intakes && !Next(c, s, e).intakes[k].phase.Starting? ==>
              k in s.intakes && Next(c, s, e).intakes[k].phase == s.intakes[k].phase
  {
    if Enabled(s, e) && e.Outside? {
      OutsideFrame(s, e.o);
    }
  }

  lemma OwnStepGoesOn(c: Config, s: State, k: nat, x: IntakeStep)
    requires k in s.intakes && IntakeEnabled(s.intakes[k], x)
    requires UnderWay(Next(c, s, OfIntake(k, x)), k)
    ensures UnderWay(s, k) || HasRoom(c, s, OfIntake(k, x), k)
  {
    ActCounts(c, s, k, x, ToPrepare);
    if x.CheckRoom? {
      RoomExact(c, s, k, x.retained);
    }
  }

  lemma UnderWayStep(c: Config, s: State, e: Step, k: nat)
    requires UnderWay(Next(c, s, e), k)
    ensures UnderWay(s, k) || HasRoom(c, s, e, k)
  {
    if e.OfIntake? && e.token == k && Enabled(s, e) {
      OwnStepGoesOn(c, s, k, e.i);
    } else {
      StepActs(c, s, e, k, ToPrepare);
      OthersGoOn(c, s, e, k);
    }
  }

  /** Nothing is ever prepared without a room check of its own intake that found room. */
  lemma {:induction false} PreparedHadRoom(c: Config, s: State, es: seq<Step>, k: nat) returns (m: nat)
    requires Initial(s) && UnderWay(Run(c, s, es), k)
    ensures m < |es| && HasRoom(c, Run(c, s, es[..m]), es[m], k)
  {
    var n := |es| - 1;
    UnderWayStep(c, Run(c, s, es[..n]), es[n], k);
    if UnderWay(Run(c, s, es[..n]), k) {
      m := PreparedHadRoom(c, s, es[..n], k);
      assert es[..n][..m] == es[..m];
    } else {
      m := n;
    }
  }

  // ----- the storage bound -----

  /** What a step of the service does in the retention store.  A room check that passes its fence
      is an admission of a new job, and takes its retained count from the sweep; the end of the
      preparation settles that job; sweeps, cleanups and discards of other jobs may come with any
      other step. */
  ghost predicate Matches(c: Config, s: State, store: R.Store, e: Step, event: Option<R.Event>) {
    if && e.OfIntake? && Enabled(s, e) && e.i.CheckRoom?
       && PassesNow(c, s, s.intakes[e.token].aborted, s.intakes[e.token].p)
    then
      && event.Some? && event.value.Admit?
      && var a := event.value;
         && R.Runs(store, a.k, a.now, a.entries, a.ending) && a.name !in store.jobs
         && e.i.retained == R.SweepTo(a.k, a.now, store.jobs, a.entries, a.ending).retained
    else if e.OfIntake? && Enabled(s, e) && e.i.PrepareSettled? then
      event.Some? && event.value.Settle? && event.value.ok == e.i.ok
    else event.Some? ==> event.value.Prune? || event.value.Finish? || event.value.Discard?
  }

  datatype Move = Move(step: Step, event: Option<R.Event>)

  ghost function StoreAfter(store: R.Store, event: Option<R.Event>): R.Store {
    if event.None? then store else R.Next(store, event.value)
  }

  function StepsOf(moves: seq<Move>): seq<Step> {
    seq(|moves|, i requires 0 <= i < |moves| => moves[i].step)
  }

  ghost function StoreRun(store: R.Store, moves: seq<Move>): R.Store {
    if moves == [] then store
    else StoreAfter(StoreRun(store, moves[..|moves| - 1]), moves[|moves| - 1].event)
  }

  ghost predicate Joint(c: Config, s: State, store: R.Store, moves: seq<Move>) {
    forall i :: 0 <= i < |moves| ==>
      Matches(c, Run(c, s, StepsOf(moves[..i])), StoreRun(store, moves[..i]), moves[i].step, moves[i].event)
  }

  ghost predicate Prepares(s: State) {
    exists k :: k in s.intakes && s.intakes[k].phase.Preparing?
  }

  /** One step of both. */
  lemma JointStep(c: Config, s: State, store: R.Store, e: Step, event: Option<R.Event>)
    requires LeaseInv(s) && Matches(c, s, store, e, event)
    requires store.inFlight.Some? <==> Prepares(s)
    ensures StoreAfter(store, event).inFlight.Some? <==> Prepares(Next(c, s, e))
  {
    var t := Next(c, s, e);
    if e.OfIntake? && Enabled(s, e) {
      IntakeJoint(c, s, store, e.token, e.i, event);
    } else {
      OthersPrepareOn(c, s, e);
      if k :| k in s.intakes && s.intakes[k].phase.Preparing? {
        assert k in t.intakes && t.intakes[k].phase.Preparing?;
      }
    }
  }

  lemma OthersPrepareOn(c: Config, s: State, e: Step)
    requires LeaseInv(s) && !(e.OfIntake? && Enabled(s, e))
    ensures forall k :: k in s.intakes ==>
              k in Next(c, s, e).intakes && Next(c, s, e).intakes[k].phase == s.intakes[k].phase
    ensures forall k :: k in Next(c, s, e).intakes && k !in s.intakes ==> Next(c, s, e).intakes[k].phase.Starting?
  {
    if Enabled(s, e) && e.Outside? {
      OutsideFrame(s, e.o);
    }
  }

  /** What holds the lease is alone. */
  lemma Alone(s: State, k: nat)
    requires LeaseInv(s) && k in s.intakes && HoldsLease(s.intakes[k])
    ensures Prepares(s) <==> s.intakes[k].phase.Preparing?
  {
    forall u | u in s.intakes && u != k ensures !HoldsLease(s.intakes[u]) {
    }
  }

  lemma IntakeJoint(c: Config, s: State, store: R.Store, k: nat, x: IntakeStep, event: Option<R.Event>)
    requires LeaseInv(s) && k in s.intakes && IntakeEnabled(s.intakes[k], x)
    requires Matches(c, s, store, OfIntake(k, x), event)
    requires store.inFlight.Some? <==> Prepares(s)
    ensures StoreAfter(store, event).inFlight.Some? <==> Prepares(Next(c, s, OfIntake(k, x)))
  {
    var t := Next(c, s, OfIntake(k, x));
    IntakeLease(c, s, k, x);
    match x
    case CheckRoom(retained) =>
      Alone(s, k);
      Alone(t, k);
      RoomExact(c, s, k, retained);
    case PrepareSettled(ok) =>
      Alone(s, k);
      assert store.inFlight.Some?;
      PreparedExact(c, s, k, ok);
      PreparedAlone(s, t, k);
    case _ => QuietStep(s, t, k);
  }

  lemma IntakeLease(c: Config, s: State, k: nat, x: IntakeStep)
    requires LeaseInv(s) && k in s.intakes && IntakeEnabled(s.intakes[k], x)
    ensures var t := Next(c, s, OfIntake(k, x));
            && LeaseInv(t) && k in t.intakes && t.intakes == s.intakes[k := t.intakes[k]]
            && (x.CheckRoom? ==> HoldsLease(t.intakes[k]))
            && (!x.CheckRoom? ==> !t.intakes[k].phase.Preparing?)
            && (!x.PrepareSettled? ==> !s.intakes[k].phase.Preparing?)
  {
    LeaseIntake(c, s, k, x);
  }

  lemma PreparedAlone(s: State, t: State, k: nat)
    requires LeaseInv(s) && k in s.intakes && HoldsLease(s.intakes[k])
    requires k in t.intakes && t.intakes == s.intakes[k := t.intakes[k]] && !t.intakes[k].phase.Preparing?
    ensures !Prepares(t)
  {
    forall u | u in s.intakes && u != k ensures !HoldsLease(s.intakes[u]) {
    }
  }

  lemma QuietStep(s: State, t: State, k: nat)
    requires k in s.intakes && k in t.intakes && t.intakes == s.intakes[k := t.intakes[k]]
    requires !s.intakes[k].phase.Preparing? && !t.intakes[k].phase.Preparing?
    ensures Prepares(t) <==> Prepares(s)
  {
    if u :| u in s.intakes && s.intakes[u].phase.Preparing? {
      assert t.intakes[u].phase.Preparing?;
    }
  }

  lemma JointPrefix(c: Config, s: State, store: R.Store, moves: seq<Move>)
    requires moves != [] && Joint(c, s, store, moves)
    ensures var n := |moves| - 1;
            && Joint(c, s, store, moves[..n])
            && StepsOf(moves)[..n] == StepsOf(moves[..n]) && StepsOf(moves)[n] == moves[n].step
            && Run(c, s, StepsOf(moves)) == Next(c, Run(c, s, StepsOf(moves[..n])), moves[n].step)
  {
    var n := |moves| - 1;
    assert StepsOf(moves)[..n] == StepsOf(moves[..n]);
    forall i | 0 <= i < n
      ensures Matches(c, Run(c, s, StepsOf(moves[..n][..i])), StoreRun(store, moves[..n][..i]),
                      moves[..n][i].step, moves[..n][i].event)
    {
      assert moves[..n][..i] == moves[..i];
    }
  }

  /** However the service and the store interleave, the store has a job in preparation exactly
      while an intake is preparing: so there is never a second, and every admission finds none. */
  lemma {:induction false} PreparationsAreAdmissions(c: Config, s: State, store: R.Store, moves: seq<Move>)
    requires Initial(s) && store.inFlight.None? && Joint(c, s, store, moves)
    ensures StoreRun(store, moves).inFlight.Some? <==> Prepares(Run(c, s, StepsOf(moves)))
  {
    if moves != [] {
      var n := |moves| - 1;
      JointPrefix(c, s, store, moves);
      PreparationsAreAdmissions(c, s, store, moves[..n]);
      AlwaysInv(c, s, StepsOf(moves[..n]));
      JointStep(c, Run(c, s, StepsOf(moves[..n])), StoreRun(store, moves[..n]), moves[n].step, moves[n].event);
    }
  }

  /** The intakes keep the storage bound: live jobs and the one an intake is preparing are never
      more than the budget, unless a sweep that undercounts admits one over it. */
  lemma {:induction false} IntakesKeepTheBound(c: Config, s: State, store: R.Store, moves: seq<Move>)
    requires Initial(s) && store.inFlight.None? && |R.LiveNames(store.jobs)| <= R.MAX_RETAINED
    requires Joint(c, s, store, moves)
    requires forall i :: 0 <= i < |moves| && moves[i].event.Some? ==>
               !R.Overfills(StoreRun(store, moves[..i]), moves[i].event.value)
    ensures |R.LiveNames(StoreRun(store, moves).jobs)| + One(Prepares(Run(c, s, StepsOf(moves)))) <= R.MAX_RETAINED
  {
    StoreBounded(store, moves);
    PreparationsAreAdmissions(c, s, store, moves);
  }

  lemma {:induction false} StoreBounded(store: R.Store, moves: seq<Move>)
    requires R.Bounded(store)
    requires forall i :: 0 <= i < |moves| && moves[i].event.Some? ==>
               !R.Overfills(StoreRun(store, moves[..i]), moves[i].event.value)
    ensures R.Bounded(StoreRun(store, moves))
  {
    if moves != [] {
      var n := |moves| - 1;
      forall i | 0 <= i < n && moves[..n][i].event.Some?
        ensures !R.Overfills(StoreRun(store, moves[..n][..i]), moves[..n][i].event.value)
      {
        assert moves[..n][..i] == moves[..i];
      }
      StoreBounded(store, moves[..n]);
      if moves[n].event.Some? {
        R.NextBounded(StoreRun(store, moves[..n]), moves[n].event.value);
      }
    }
  }

  // ----- nothing is stuck -----

  /** Every drain awaits an intake that was admitted. */
  ghost predicate AwaitInv(s: State) {
    forall d :: d in s.queue.drains && s.queue.drains[d].pc.Awaiting? ==> s.queue.drains[d].pc.token in s.intakes
  }

  lemma AwaitStep(c: Config, s: State, e: Step)
    requires AwaitInv(s)
    ensures AwaitInv(Next(c, s, e))
  {
    if Enabled(s, e) {
      match e
      case OfDrain(d, n) => AwaitDrain(c, s, d, n);
      case OfIntake(k, x) =>
        assert IntakeEffect(c, s, k, x).queue == s.queue;
      case Outside(o) => OutsideFrame(s, o);
      case _ =>
    }
  }

  lemma AwaitDrain(c: Config, s: State, d: nat, n: DrainStep)
    requires AwaitInv(s) && DrainEnabled(s, d, n)
    ensures AwaitInv(DrainEffect(c, s, d, n))
  {
  }

  lemma {:induction false} AlwaysAwaitsAdmitted(c: Config, s: State, es: seq<Step>)
    requires Initial(s)
    ensures AwaitInv(Run(c, s, es))
  {
    if es != [] {
      AlwaysAwaitsAdmitted(c, s, es[..|es| - 1]);
      AwaitStep(c, Run(c, s, es[..|es| - 1]), es[|es| - 1]);
    }
  }

  /** The service can go on by itself: a drain or an intake has a step to take.  (An intake that
      awaits the planner or the materializer goes on when they answer or the deadline passes.) */
  ghost predicate CanGoOn(s: State) {
    || (exists d, n :: d in s.queue.drains && DrainInTurn(s, s.queue.drains[d], n))
    || (exists k, x :: k in s.intakes && IntakeInTurn(s.intakes[k].phase, x))
  }

  function NextOf(phase: Phase): IntakeStep {
    match phase
    case Starting => Begin
    case Proposing => Propose(PlannerFailed(true))
    case Planned(_, _) => CheckRoom(0)
    case Preparing(_, _) => PrepareSettled(false)
    case Ready(_) => Authorize(AuthorizeThrows)
    case Finishing => FreeLease
    case _ => Remove
  }

  function NextTurn(drain: Drain): DrainStep {
    if drain.pc.Looping? then Turn
    else if !drain.published then Publish
    else if drain.pc.Awaiting? then Resume
    else DrainStep.Unwind
  }

  lemma AllOver(t: State)
    requires AwaitInv(t)
    ensures CanGoOn(t) || (t.queue.drains == map[] && forall k :: k in t.intakes ==> t.intakes[k].phase.Done?)
  {
    if k :| k in t.intakes && !t.intakes[k].phase.Done? {
      assert IntakeInTurn(t.intakes[k].phase, NextOf(t.intakes[k].phase));
    } else if d :| d in t.queue.drains {
      assert DrainInTurn(t, t.queue.drains[d], NextTurn(t.queue.drains[d]));
    }
  }

  /** While an intake is active or a drain runs, the service can go on; so after `stop` it can
      until the stop promise may settle, and a running service that can not holds no lease and,
      with the gate shut down only after stop, has nothing queued unless the slot is held by
      another or its wake is owed. */
  lemma NeverStuck(c: Config, s: State, es: seq<Step>)
    requires Initial(s) && !CanGoOn(Run(c, s, es))
    ensures var t := Run(c, s, es);
            && t.queue.drains == map[] && t.queue.drainTask.None?
            && (forall k :: k in t.intakes ==> t.intakes[k].phase.Done? && !Holds(t.gate, k))
            && (t.stopped ==> Enabled(t, StopSettled))
            && (ShutDownLast(c, s, es) && t.queue.pending != [] ==> t.gate.holder.Some? || t.owed > 0)
  {
    var t := Run(c, s, es);
    AlwaysInv(c, s, es);
    AlwaysAwaitsAdmitted(c, s, es);
    AllOver(t);
    if ShutDownLast(c, s, es) {
      NoLostWake(c, s, es);
    }
  }
}
