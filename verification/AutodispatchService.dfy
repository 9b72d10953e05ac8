/**
 The auto-dispatch service as the source writes it
 (apps/server/src/autodispatch_service.ts): closure variables that callbacks and async
 loops update in place.  Each method is one synchronous block and is proved to be the
 step of the protocol of that name.  `Host` keeps the record of the steps and proves the
 service to be where the protocol's run of that record ends, so whatever holds of every run
 of the protocol holds of the object.
 */
module AutodispatchService {
  import opened Options
  import opened Kernel
  import opened BackgroundGate
  import opened Autodispatch
  import opened AutodispatchSafety
  import opened AutodispatchRuns
  import Retention

  class Service {
    const config: Config
    const background: BackgroundResourceGate

    /** The kernel repository and the clock, as they read now. */
    var repo: Repo

    var pendingIntakes: seq<Pending>
    var seenCompletionIds: set<RunId>
    var drainTask: Option<nat>
    var wakeRequested: bool
    var stopped: bool
    var stopSettled: bool
    var active: set<nat>

    /** Suspended `runIntake` calls by lease token, and suspended drains. */
    var intakes: map<nat, Intake>
    var drains: map<nat, Drain>
    var nextDrain: nat

    ghost var owed: nat
    ghost var accepted: map<nat, RunId>
    ghost var dropped: seq<nat>
    ghost var effects: Effects

    /** Counts the blocks run so far; an intent is stamped with it when captured. */
    var steps: nat

    ghost function TheQueue(): Queue
      reads this
    {
      Queue(pendingIntakes, seenCompletionIds, drainTask, drains, nextDrain, wakeRequested, accepted, dropped)
    }

    ghost function Abs(): State
      reads this, background
    {
      State(repo, background.State(), owed, TheQueue(), intakes, effects, stopped, stopSettled, steps)
    }

    ghost predicate Valid()
      reads this
    {
      active == set t | t in intakes && Active(intakes[t])
    }

    constructor (config: Config, background: BackgroundResourceGate, repo: Repo)
      requires Keyed(repo)
      requires background.holder.Some? ==> background.holder.value.token < background.nextToken
      modifies background
      ensures Valid() && Initial(Abs()) && this.config == config && this.background == background
      ensures background.holder == old(background.holder) && background.isClosed == old(background.isClosed)
    {
      this.config, this.background, this.repo := config, background, repo;
      pendingIntakes, seenCompletionIds, active := [], {}, {};
      drainTask, wakeRequested, stopped, stopSettled := None, false, false, false;
      intakes, drains, nextDrain := map[], map[], 0;
      owed, accepted, dropped, effects, steps := 0, map[], [], NO_EFFECTS, 0;
      new;
      background.OnSettled(OWN_WAKE);
    }

    function ReadCurrentIntake(aborted: bool, p: Pending): (r: Option<Policy>)
      reads this, background
      ensures r == Fence(config, Abs(), aborted, p)
    {
      if stopped || aborted || !config.enabled then None
      else if background.isClosed then None
      else CurrentPolicy(repo, p)
    }

    method ClearPending()
      modifies this`pendingIntakes, this`dropped
      ensures TheQueue() == DropAll(old(TheQueue()))
    {
      dropped := dropped + Births(pendingIntakes);
      pendingIntakes := [];
    }

    method RequestDrain()
      modifies this`pendingIntakes, this`dropped, this`wakeRequested, this`drains, this`nextDrain
      ensures TheQueue() == Autodispatch.RequestDrain(old(TheQueue()), stopped, background.isClosed)
    {
      if stopped {
        return;
      }
      if background.isClosed {
        ClearPending();
        wakeRequested := false;
        return;
      }
      if drainTask.Some? {
        wakeRequested := true;
        return;
      }
      if pendingIntakes == [] {
        return;
      }
      drains := drains[nextDrain := Drain(Looping, false)];
      nextDrain := nextDrain + 1;
    }

    /** Deduplicate, capture, enqueue, and ask for a drain. */
    method AcceptRun(run: RunId)
      modifies this`pendingIntakes, this`dropped, this`wakeRequested, this`drains, this`nextDrain,
               this`seenCompletionIds, this`accepted
      ensures TheQueue() == Autodispatch.OnRunCompleted(config, old(Abs()), run)
    {
      if stopped || !config.enabled || !config.hasPlanner {
        return;
      }
      if run in seenCompletionIds {
        return;
      }
      var captured := Capture(repo, run, steps);
      if captured.None? {
        return;
      }
      seenCompletionIds := seenCompletionIds + {run};
      accepted := accepted[captured.value.born := run];
      pendingIntakes := pendingIntakes + [captured.value];
      RequestDrain();
    }

    method OnRunCompleted(run: RunId)
      requires Valid()
      modifies this`pendingIntakes, this`dropped, this`wakeRequested, this`drains, this`nextDrain,
               this`seenCompletionIds, this`accepted, this`steps
      ensures Valid() && Abs() == Tick(old(Abs()).(queue := Autodispatch.OnRunCompleted(config, old(Abs()), run)))
    {
      AcceptRun(run);
      steps := steps + 1;
    }

    /** The wake registered with the gate, called by a release loop that owes it. */
    method OnSettled()
      requires Valid() && owed > 0
      modifies this`pendingIntakes, this`dropped, this`wakeRequested, this`drains, this`nextDrain,
               this`owed, this`steps
      ensures Valid() && Abs() == Tick(WakeEffect(old(Abs())))
    {
      owed := owed - 1;
      steps := steps + 1;
      RequestDrain();
    }

    /** One turn of the loop of `drainPending`, up to its next `await` or `continue`. */
    method TakeTurn(drain: nat)
      requires Valid() && drain in drains
      modifies this`pendingIntakes, this`dropped, this`drains, this`intakes, this`active, background
      ensures Valid()
      ensures old(Admits(config, Abs())) ==>
                && background.State() == Acquired(old(background.State()), AUTODISPATCH)
                && TheQueue() == SetDrain(old(TheQueue()), drain, Awaiting(old(background.nextToken)))
                                   .(pending := old(pendingIntakes)[1..])
                && intakes == old(intakes)[old(background.nextToken) := Intake(old(pendingIntakes)[0], Starting, false)]
      ensures !old(Admits(config, Abs())) ==>
                && background.State() == old(background.State()) && intakes == old(intakes)
                && TheQueue() == TurnAway(config, old(Abs()), drain)
    {
      if stopped || pendingIntakes == [] {
        drains := drains[drain := drains[drain].(pc := Unwinding)];
        return;
      }
      var pending := pendingIntakes[0];
      if background.isClosed {
        ClearPending();
        drains := drains[drain := drains[drain].(pc := Unwinding)];
        return;
      }
      if ReadCurrentIntake(false, pending).None? {
        dropped := dropped + [pending.born];
        pendingIntakes := pendingIntakes[1..];
        return;
      }
      var reservation := background.TryAcquire(AUTODISPATCH);
      if reservation.None? {
        drains := drains[drain := drains[drain].(pc := Unwinding)];
        return;
      }
      HandOff(drain, pending, reservation.value.token);
    }

    method DrainTurn(drain: nat)
      requires Valid() && DrainEnabled(Abs(), drain, Turn)
      modifies this`pendingIntakes, this`dropped, this`drains, this`intakes, this`active, this`steps, background
      ensures Valid() && Abs() == Tick(DrainEffect(config, old(Abs()), drain, Turn))
    {
      TakeTurn(drain);
      steps := steps + 1;
    }

    /** From pending to active. */
    method HandOff(drain: nat, pending: Pending, token: nat)
      requires Valid() && drain in drains && pendingIntakes != [] && pending == pendingIntakes[0]
      modifies this`pendingIntakes, this`drains, this`intakes, this`active
      ensures Valid()
      ensures TheQueue() == SetDrain(old(TheQueue()), drain, Awaiting(token)).(pending := old(pendingIntakes)[1..])
      ensures intakes == old(intakes)[token := Intake(pending, Starting, false)]
    {
      pendingIntakes := pendingIntakes[1..];
      active := active + {token};
      intakes := intakes[token := Intake(pending, Starting, false)];
      drains := drains[drain := drains[drain].(pc := Awaiting(token))];
    }

    /** The call that started the drain returns: `drainTask = task`. */
    method DrainPublish(drain: nat)
      requires Valid() && DrainEnabled(Abs(), drain, Publish)
      modifies this`drains, this`drainTask, this`steps
      ensures Valid() && Abs() == Tick(DrainEffect(config, old(Abs()), drain, Publish))
    {
      steps := steps + 1;
      drains := drains[drain := drains[drain].(published := true)];
      drainTask := Some(drain);
    }

    /** The awaited intake is done: back to the top of the loop. */
    method DrainResume(drain: nat)
      requires Valid() && DrainEnabled(Abs(), drain, Resume)
      modifies this`drains, this`steps
      ensures Valid() && Abs() == Tick(DrainEffect(config, old(Abs()), drain, Resume))
    {
      steps := steps + 1;
      drains := drains[drain := drains[drain].(pc := Looping)];
    }

    /** The `finally` of a drain. */
    method Unwind(drain: nat)
      modifies this`pendingIntakes, this`dropped, this`wakeRequested, this`drains, this`nextDrain, this`drainTask
      ensures TheQueue() == UnwindDrain(old(TheQueue()), drain, stopped, background.isClosed)
    {
      drains := map d | d in drains && d != drain :: drains[d];
      drainTask := None;
      if background.isClosed {
        ClearPending();
        wakeRequested := false;
      } else if wakeRequested {
        wakeRequested := false;
        if !stopped && pendingIntakes != [] {
          RequestDrain();
        }
      }
    }

    method DrainFinally(drain: nat)
      requires Valid() && DrainEnabled(Abs(), drain, DrainStep.Unwind)
      modifies this`pendingIntakes, this`dropped, this`wakeRequested, this`drains, this`nextDrain,
               this`drainTask, this`steps
      ensures Valid() && Abs() == Tick(DrainEffect(config, old(Abs()), drain, DrainStep.Unwind))
    {
      Unwind(drain);
      steps := steps + 1;
    }

    // ----- the blocks of `runIntake` -----

    predicate Suspended(token: nat, step: IntakeStep)
      reads this
    {
      token in intakes && IntakeEnabled(intakes[token], step)
    }

    method SetPhase(token: nat, phase: Phase)
      requires token in intakes
      modifies this`intakes
      ensures intakes == old(intakes)[token := old(intakes)[token].(phase := phase)]
    {
      intakes := intakes[token := intakes[token].(phase := phase)];
    }

    method Begin(token: nat)
      requires Valid() && Suspended(token, IntakeStep.Begin)
      modifies this`intakes, this`steps
      ensures Valid() && Abs() == Tick(IntakeEffect(config, old(Abs()), token, IntakeStep.Begin))
    {
      var before := ReadCurrentIntake(intakes[token].aborted, intakes[token].p);
      steps := steps + 1;
      SetPhase(token, if before.None? then Finishing else Proposing);
    }

    /** The planner has answered, failed, or run into the deadline. */
    method UseReply(token: nat, current: Option<Policy>, reply: PlanReply)
      requires token in intakes
      modifies this`intakes, this`effects
      ensures var next := OnProposal(config, current, token, old(intakes)[token], old(effects), reply);
              intakes == old(intakes)[token := next.intake] && effects == next.effects
    {
      var i := intakes[token];
      if reply.PlannerFailed? {
        intakes := intakes[token := i.(phase := Finishing, aborted := i.aborted || reply.deadline)];
        return;
      }
      if current.None? || reply.operation !in config.operations || reply.operation !in current.value.operations {
        SetPhase(token, Finishing);
        return;
      }
      effects := effects.(planned := effects.planned + multiset{token});
      if reply.created.CreateThrows? || !reply.created.frozen || !config.hasDependencies || !config.hasMaterializer {
        SetPhase(token, Finishing);
        return;
      }
      SetPhase(token, Planned(reply.created.id, current.value));
    }

    method Proposed(token: nat, reply: PlanReply)
      requires Valid() && Suspended(token, Propose(reply))
      modifies this`intakes, this`effects, this`steps
      ensures Valid() && Abs() == Tick(IntakeEffect(config, old(Abs()), token, Propose(reply)))
    {
      var current := ReadCurrentIntake(intakes[token].aborted, intakes[token].p);
      UseReply(token, current, reply);
      steps := steps + 1;
    }

    /** The fence and the retention budget before preparing. */
    method StartPreparing(token: nat, retained: nat)
      requires Valid() && Suspended(token, CheckRoom(retained))
      modifies this`intakes, this`steps
      ensures Valid() && Abs() == Tick(IntakeEffect(config, old(Abs()), token, CheckRoom(retained)))
    {
      var i := intakes[token];
      var current := ReadCurrentIntake(i.aborted, i.p);
      steps := steps + 1;
      if current.None? {
        SetPhase(token, Finishing);
      } else if retained >= Retention.MAX_RETAINED {
        SetPhase(token, Finishing);
      } else {
        SetPhase(token, Preparing(i.phase.plan, i.phase.policy));
      }
    }

    method Prepared(token: nat, ok: bool)
      requires Valid() && Suspended(token, PrepareSettled(ok))
      modifies this`intakes, this`effects, this`steps
      ensures Valid() && Abs() == Tick(IntakeEffect(config, old(Abs()), token, PrepareSettled(ok)))
    {
      steps := steps + 1;
      if !ok {
        SetPhase(token, Finishing);
      } else {
        effects := effects.(prepared := effects.prepared + multiset{token});
        SetPhase(token, Ready(intakes[token].phase.plan));
      }
    }

    /** The last fence, and the grant call in the same block. */
    method UseVerdict(token: nat, current: Option<Policy>, verdict: Verdict)
      requires token in intakes
      modifies this`intakes, this`effects
      ensures var next := OnAuthorize(current, token, old(intakes)[token], old(effects), verdict);
              intakes == old(intakes)[token := next.intake] && effects == next.effects
    {
      SetPhase(token, Finishing);
      if current.None? {
        effects := effects.(discarded := effects.discarded + multiset{token});
        return;
      }
      effects := effects.(granted := effects.granted + multiset{token});
      if verdict.Execution? && (verdict.status != Other || verdict.replayed) {
        effects := effects.(kept := effects.kept + multiset{token});
      } else {
        effects := effects.(discarded := effects.discarded + multiset{token});
      }
    }

    method AuthorizeOrDiscard(token: nat, verdict: Verdict)
      requires Valid() && Suspended(token, Authorize(verdict))
      modifies this`intakes, this`effects, this`steps
      ensures Valid() && Abs() == Tick(IntakeEffect(config, old(Abs()), token, Authorize(verdict)))
    {
      var current := ReadCurrentIntake(intakes[token].aborted, intakes[token].p);
      UseVerdict(token, current, verdict);
      steps := steps + 1;
    }

    /** `release(reservation)`, up to the gate's wake loop. */
    method FreeSlot(token: nat)
      modifies this`owed, background
      ensures background.State() == Freed(old(background.State()), token)
      ensures owed == old(owed) + if old(Holds(background.State(), token) && OWN_WAKE in background.wakes) then 1 else 0
    {
      var snapshot := background.Free(token);
      owed := owed + if OWN_WAKE in snapshot then 1 else 0;
    }

    /** The first half of the `finally`. */
    method ReleaseLease(token: nat)
      requires Valid() && Suspended(token, FreeLease)
      modifies this`intakes, this`effects, this`owed, this`steps, background
      ensures Valid() && Abs() == Tick(IntakeEffect(config, old(Abs()), token, FreeLease))
    {
      FreeSlot(token);
      MarkFreed(token);
      steps := steps + 1;
    }

    method MarkFreed(token: nat)
      requires token in intakes
      modifies this`intakes, this`effects
      ensures effects == old(effects).(freed := old(effects).freed + multiset{token})
      ensures intakes == old(intakes)[token := old(intakes)[token].(phase := LeaseFreed)]
    {
      effects := effects.(freed := effects.freed + multiset{token});
      intakes := intakes[token := intakes[token].(phase := LeaseFreed)];
    }

    /** `active.delete(task)`. */
    method RemoveActive(token: nat)
      requires Valid() && Suspended(token, Remove)
      modifies this`intakes, this`active, this`steps
      ensures Valid() && Abs() == Tick(IntakeEffect(config, old(Abs()), token, Remove))
    {
      SetPhase(token, Phase.Done);
      active := active - {token};
      steps := steps + 1;
    }

    // ----- foreground and stop -----

    /** `for (const task of active) task.controller.abort()`. */
    method AbortAll()
      requires Valid()
      modifies this`intakes
      ensures Valid() && intakes == AbortActive(old(intakes))
    {
      var todo := active;
      while todo != {}
        invariant todo <= active
        invariant intakes.Keys == old(intakes).Keys
        invariant forall t :: t in old(intakes) ==>
                    intakes[t] == if t in active && t !in todo then old(intakes)[t].(aborted := true)
                                  else old(intakes)[t]
      {
        var task :| task in todo;
        todo := todo - {task};
        intakes := intakes[task := intakes[task].(aborted := true)];
      }
      assert intakes == AbortActive(old(intakes));
    }

    /** Forget what is queued, abort what is active. */
    method Invalidate()
      requires Valid()
      modifies this`pendingIntakes, this`dropped, this`wakeRequested, this`intakes
      ensures Valid() && intakes == AbortActive(old(intakes))
      ensures TheQueue() == DropAll(old(TheQueue())).(wakeRequested := false)
    {
      ClearPending();
      wakeRequested := false;
      AbortAll();
    }

    method NotifyForeground()
      requires Valid()
      modifies this`pendingIntakes, this`dropped, this`wakeRequested, this`intakes, this`steps
      ensures Valid() && Abs() == Tick(Autodispatch.NotifyForeground(old(Abs())))
    {
      steps := steps + 1;
      Invalidate();
    }

    /** `stop` up to its first `await`; a second call returns the same promise. */
    method Stop()
      requires Valid()
      modifies this`pendingIntakes, this`dropped, this`wakeRequested, this`intakes, this`stopped, this`steps,
               background
      ensures Valid() && Abs() == Tick(StopService(old(Abs())))
    {
      steps := steps + 1;
      if stopped {
        return;
      }
      stopped := true;
      background.Unsubscribe(OWN_WAKE);
      Invalidate();
    }

    /** Someone else: the world, another owner of the gate, or whoever closes it. */
    method OutsideActs(o: OutsideStep)
      requires Valid() && OutsideEnabled(Abs(), o)
      modifies this`repo, this`owed, this`steps, background
      ensures Valid() && Abs() == Tick(OutsideEffect(old(Abs()), o))
    {
      match o {
        case World(now) => repo := now;
        case AcquireGate(owner) => var _ := background.TryAcquire(owner);
        case ReleaseGate(t) => FreeSlot(t);
        case CloseGate => background.Close();
        case ReopenGate => background.Reopen();
        case ShutdownGate => background.Shutdown();
        case SubscribeGate(w) => background.OnSettled(w);
        case UnsubscribeGate(w) => background.Unsubscribe(w);
      }
      steps := steps + 1;
    }

    /** One look of the stop loop: settle if nothing is left to wait for. */
    method PollStop() returns (done: bool)
      requires Valid() && stopped
      modifies this`stopSettled, this`steps
      ensures Valid() && (done <==> Quiet(old(Abs())))
      ensures Abs() == Tick(if done then old(Abs()).(settled := true) else old(Abs()))
    {
      steps := steps + 1;
      done := active == {} && drainTask.None?;
      assert active == {} <==> forall t :: t in intakes ==> !Active(intakes[t]) by {
        if active == {} {
          forall t | t in intakes ensures !Active(intakes[t]) {
            assert t !in active;
          }
        }
      }
      if done {
        stopSettled := true;
      }
    }
  }

  /** A service with the record of everything that has happened to it. */
  class Host {
    const service: Service
    ghost const first: State
    ghost var history: seq<Step>

    /** The service is where the protocol's run of that record ends. */
    ghost predicate Valid()
      reads this, service, service.background
    {
      service.Valid() && Initial(first) && service.Abs() == Run(service.config, first, history)
    }

    constructor (config: Config, background: BackgroundResourceGate, repo: Repo)
      requires Keyed(repo)
      requires background.holder.Some? ==> background.holder.value.token < background.nextToken
      modifies background
      ensures Valid() && fresh(service) && service.background == background && history == []
    {
      var created := new Service(config, background, repo);
      service := created;
      first, history := created.Abs(), [];
    }

    /** Any enabled step keeps the record exact, and with it whatever holds of every run. */
    method Perform(e: Step)
      requires Valid() && Enabled(service.Abs(), e)
      modifies this`history, service, service.background
      ensures Valid() && history == old(history) + [e]
      ensures Inv(service.Abs())
    {
      Dispatch(e);
      RunSnoc(service.config, first, history, e);
      history := history + [e];
      AlwaysInv(service.config, first, history);
    }

    method Dispatch(e: Step)
      requires service.Valid() && Enabled(service.Abs(), e)
      modifies service, service.background
      ensures service.Valid() && service.Abs() == Next(service.config, old(service.Abs()), e)
    {
      match e
      case Notify(run) => service.OnRunCompleted(run);
      case Wake => service.OnSettled();
      case OfDrain(d, n) => PerformDrain(d, n);
      case OfIntake(t, i) => PerformIntake(t, i);
      case Foreground => service.NotifyForeground();
      case Stop => service.Stop();
      case StopSettled => var _ := service.PollStop();
      case Outside(o) => service.OutsideActs(o);
    }

    method PerformDrain(d: nat, n: DrainStep)
      requires service.Valid() && DrainEnabled(service.Abs(), d, n)
      modifies service, service.background
      ensures service.Valid() && service.Abs() == Tick(DrainEffect(service.config, old(service.Abs()), d, n))
    {
      match n
      case Turn => service.DrainTurn(d);
      case Publish => service.DrainPublish(d);
      case Resume => service.DrainResume(d);
      case Unwind => service.DrainFinally(d);
    }

    method PerformIntake(t: nat, i: IntakeStep)
      requires service.Valid() && service.Suspended(t, i)
      modifies service, service.background
      ensures service.Valid() && service.Abs() == Tick(IntakeEffect(service.config, old(service.Abs()), t, i))
    {
      match i
      case Begin => service.Begin(t);
      case Propose(reply) => service.Proposed(t, reply);
      case CheckRoom(retained) => service.StartPreparing(t, retained);
      case PrepareSettled(ok) => service.Prepared(t, ok);
      case Authorize(verdict) => service.AuthorizeOrDiscard(t, verdict);
      case FreeLease => service.ReleaseLease(t);
      case Remove => service.RemoveActive(t);
    }
  }
}
