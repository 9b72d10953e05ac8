/**
 What startup acquires is what teardown gives back, on every path and in order, and teardown
 never gets stuck (apps/server/src/bootstrap.ts:3522-4125).
 */
module LifecycleResources {
  import opened Options
  import opened Lifecycle

  // ----- given back exactly what was acquired -----

  ghost predicate AcquiredInv(s: State, done: seq<Step>) {
    && (s.res.hook || HookCalled in s.res.log <==> AdoptHook in done)
    && (s.res.agora != Absent <==> OpenAgora in done)
    && (s.res.db != Absent <==> OpenDb in done)
  }

  lemma AcquiredAlong(s: State, done: seq<Step>, e: Step, t: State)
    requires AcquiredInv(s, done)
    requires t.res.hook || HookCalled in t.res.log <==> s.res.hook || HookCalled in s.res.log || e == AdoptHook
    requires t.res.agora != Absent <==> s.res.agora != Absent || e == OpenAgora
    requires t.res.db != Absent <==> s.res.db != Absent || e == OpenDb
    ensures AcquiredInv(t, done + [e])
  {
    assert forall x :: x in done + [e] <==> x in done || x == e;
  }

  lemma ClosingKeepsHook(r: Resources)
    ensures HookCalled in CloseStores(r).log <==> HookCalled in r.log
    ensures HookCalled in CloseAgora(CloseListener(r)).log <==> HookCalled in r.log
    ensures HookCalled in CallHook(r).log <==> HookCalled in r.log || r.hook
  {
    LoggedIn(r.(agora := Closed), AgoraClosed);
    LoggedIn(CloseAgora(r).(db := Closed), DbClosed);
    LoggedIn(r.(listening := false), ListenerClosed);
    LoggedIn(CloseListener(r).(agora := Closed), AgoraClosed);
    LoggedIn(r.(hook := false), HookCalled);
  }

  /** What a teardown step does to the resources. */
  lemma TeardownRes(s: State, e: Step)
    requires Enabled(s, e) && !s.pc.Booting?
    ensures Apply(s, e).res in {s.res, Logged(s.res, EngineDrained), Logged(s.res, DrainFailed), CallHook(s.res),
                                CloseStores(s.res), CloseListener(s.res), CloseAgora(CloseListener(s.res))}
  {
    match e
    case HookSettled => WaitRes(s.(http := s.http.(admitSends := false)));
    case SendsSettled => WaitRes(s);
    case AdoptionsSettled => WaitRes(s);
    case _ =>
  }

  lemma WaitRes(s: State)
    ensures AwaitAdoptions(s).res in {s.res, CloseStores(s.res)}
    ensures AwaitSends(s).res in {s.res, CloseStores(s.res)}
  {
  }

  ghost predicate SameAcquired(r: Resources, t: Resources) {
    && (t.hook || HookCalled in t.log <==> r.hook || HookCalled in r.log)
    && (t.agora.Absent? <==> r.agora.Absent?) && (t.db.Absent? <==> r.db.Absent?)
  }

  lemma GivingBackKeeps(r: Resources)
    ensures SameAcquired(r, Logged(r, EngineDrained)) && SameAcquired(r, Logged(r, DrainFailed))
    ensures SameAcquired(r, CallHook(r)) && SameAcquired(r, CloseStores(r)) && SameAcquired(r, CloseListener(r))
    ensures SameAcquired(r, CloseAgora(CloseListener(r)))
  {
    LoggedIn(r, EngineDrained);
    LoggedIn(r, DrainFailed);
    LoggedIn(r.(listening := false), ListenerClosed);
    ClosingKeepsHook(r);
  }

  lemma AcquiredAtBoot(s: State, e: Step)
    requires Enabled(s, e) && s.pc.Booting?
    ensures var t := Apply(s, e);
            && (t.res.hook || HookCalled in t.res.log <==> s.res.hook || HookCalled in s.res.log || e == AdoptHook)
            && (t.res.agora != Absent <==> s.res.agora != Absent || e == OpenAgora)
            && (t.res.db != Absent <==> s.res.db != Absent || e == OpenDb)
  {
  }

  lemma AcquiredKept(s: State, done: seq<Step>, e: Step)
    requires AcquiredInv(s, done) && Enabled(s, e)
    ensures AcquiredInv(Apply(s, e), done + [e])
  {
    if s.pc.Booting? {
      AcquiredAtBoot(s, e);
    } else {
      TeardownRes(s, e);
      GivingBackKeeps(s.res);
    }
    AcquiredAlong(s, done, e, Apply(s, e));
  }

  lemma {:induction false} RunAcquires(states: seq<State>, steps: seq<Step>, k: nat)
    requires Run(states, steps) && k < |states|
    ensures AcquiredInv(states[k], steps[..k])
  {
    if k > 0 {
      RunAcquires(states, steps, k - 1);
      AcquiredKept(states[k - 1], steps[..k - 1], steps[k - 1]);
      assert steps[..k] == steps[..k - 1] + [steps[k - 1]];
    }
  }

  /** When teardown is over, on whatever path, the hook was called exactly if startup adopted one,
      and each store was closed exactly if it was opened. */
  lemma GivenBackIffAcquired(states: seq<State>, steps: seq<Step>, k: nat)
    requires Run(states, steps) && k < |states| && states[k].pc.Done?
    ensures HookCalled in states[k].res.log <==> AdoptHook in steps[..k]
    ensures AgoraClosed in states[k].res.log <==> OpenAgora in steps[..k]
    ensures DbClosed in states[k].res.log <==> OpenDb in steps[..k]
  {
    RunAcquires(states, steps, k);
    RunKeeps(states, steps, k);
  }

  // ----- the order after a failed startup -----

  /** The order on a failed startup: the listener goes before the stores. */
  function FailureRank(e: Event): nat {
    match e
    case DrainFailed => 1
    case EngineDrained => 1
    case HookCalled => 2
    case ListenerClosed => 3
    case AgoraClosed => 4
    case DbClosed => 5
  }

  ghost predicate Rising(log: seq<Event>, bound: nat) {
    && (forall i, j :: 0 <= i < j < |log| ==> FailureRank(log[i]) < FailureRank(log[j]))
    && forall i :: 0 <= i < |log| ==> FailureRank(log[i]) <= bound
  }

  function FailureBound(s: State): nat {
    match s.pc
    case Connectors(mode) => if mode.ListenFailure? then 1 else 4
    case HookRuns(mode) => if mode.ListenFailure? then 2 else 4
    case ClosingListener(_) => 2
    case Stopping(mode) => if mode.ListenFailure? then 0 else 4
    case Done(_) => 5
    case _ => 0
  }

  ghost predicate FailureInv(s: State) {
    && s.memo == ShuttingDown(s.pc)
    && (!s.memo && !s.pc.Serving? ==>
          && Rising(s.res.log, FailureBound(s))
          && (s.res.hook && !s.pc.Connectors? ==> s.res.log == [])
          && (s.pc == Connectors(StartupFailure) && s.res.hook ==> s.res.log == [])
          && (s.res.agora.Open? ==> Rising(s.res.log, 2)))
  }

  lemma RisingAdds(r: Resources, bound: nat, e: Event)
    requires Rising(r.log, bound) && bound < FailureRank(e)
    ensures Rising(Logged(r, e).log, FailureRank(e))
  {
  }

  lemma RisingStores(r: Resources)
    requires Rising(r.log, 4) && (r.agora.Open? ==> Rising(r.log, 2))
    ensures Rising(CloseStores(r).log, 5)
  {
    if r.agora.Open? {
      RisingAdds(r.(agora := Closed), 2, AgoraClosed);
    }
    if r.db.Open? {
      RisingAdds(CloseAgora(r).(db := Closed), 4, DbClosed);
    }
  }

  lemma FailureOfHook(s: State)
    requires FailureInv(s) && s.pc.Connectors? && !s.memo
    ensures FailureInv(s.(pc := HookRuns(s.pc.mode), res := CallHook(s.res)))
  {
    if s.res.hook {
      RisingAdds(s.res.(hook := false), if s.pc.mode.ListenFailure? then 1 else 0, HookCalled);
    }
  }

  lemma FailureOfListener(s: State)
    requires FailureInv(s) && s.pc == ClosingListener(ListenFailure) && !s.res.hook
    ensures FailureInv(AfterListener(s))
  {
    RisingAdds(s.res.(listening := false), 2, ListenerClosed);
    RisingAdds(CloseListener(s.res).(agora := Closed), 3, AgoraClosed);
  }

  lemma FailureOfStopping(s: State, drained: bool)
    requires FailureInv(s) && s.pc.Stopping? && !s.memo
    ensures FailureInv(AfterStopping(s, drained))
  {
    if s.pc.mode.ListenFailure? {
      RisingAdds(s.res, 0, EngineDrained);
      RisingAdds(s.res, 0, DrainFailed);
    }
  }

  lemma FailureWhileBooting(s: State, e: Step)
    requires AdmitInv(s) && OnceInv(s) && Enabled(s, e) && s.pc.Booting?
    ensures FailureInv(Apply(s, e))
  {
  }

  lemma FailureAfterHook(s: State)
    requires GivenInv(s) && FailureInv(s) && s.pc.HookRuns? && !s.memo
    ensures FailureInv(AfterHook(s))
  {
    if s.pc.mode.StartupFailure? {
      RisingStores(s.res);
    }
  }

  lemma FailureKept(s: State, e: Step)
    requires AdmitInv(s) && GivenInv(s) && OnceInv(s) && FailureInv(s) && Enabled(s, e)
    ensures FailureInv(Apply(s, e))
  {
    if s.pc.Booting? {
      FailureWhileBooting(s, e);
    } else if !s.memo && !s.pc.Serving? {
      match e {
        case Stopped(drained) => FailureOfStopping(s, drained);
        case ConnectorsStopped => FailureOfHook(s);
        case HookSettled => FailureAfterHook(s);
        case ListenerDown => FailureOfListener(s);
        case _ =>
      }
    }
  }

  lemma {:induction false} RunFails(states: seq<State>, steps: seq<Step>, k: nat)
    requires Run(states, steps) && k < |states|
    ensures FailureInv(states[k])
  {
    if k > 0 {
      RunFails(states, steps, k - 1);
      RunKeeps(states, steps, k - 1);
      FailureKept(states[k - 1], steps[k - 1]);
    }
  }

  /** A startup that fails, early, late or at the listen, gives back in order: drain, hook,
      listener, AGORA, database. */
  lemma FailureInOrder(states: seq<State>, steps: seq<Step>, k: nat, i: nat, j: nat)
    requires Run(states, steps) && k < |states| && !states[k].memo && !states[k].pc.Serving?
    requires i < j < |states[k].res.log|
    ensures FailureRank(states[k].res.log[i]) < FailureRank(states[k].res.log[j])
  {
    RunFails(states, steps, k);
  }

  // ----- teardown goes on -----

  /** In every reachable state of a teardown, either its next step can be taken, or it waits for a
      handler that was in flight when the wait began and that can end. */
  lemma TeardownNeverStuck(states: seq<State>, steps: seq<Step>, k: nat)
    requires Run(states, steps) && k < |states|
    requires var pc := states[k].pc; !pc.Booting? && !pc.Serving? && !pc.Done?
    ensures var s := states[k];
            || (exists e :: Enabled(s, e) && e in {Stopped(true), ConnectorsStopped, HookSettled, SendsSettled,
                                                   AdoptionsSettled, ListenerDown})
            || (s.pc.WaitingSends? && exists h :: h in s.pc.waiting && Enabled(s, EndSend(h)))
            || (s.pc.WaitingAdoptions? && exists h :: h in s.pc.waiting && Enabled(s, EndAdoption(h)))
  {
    var s := states[k];
    match s.pc
    case Stopping(_) => assert Enabled(s, Stopped(true));
    case Connectors(_) => assert Enabled(s, ConnectorsStopped);
    case HookRuns(_) => assert Enabled(s, HookSettled);
    case ClosingListener(_) => assert Enabled(s, ListenerDown);
    case WaitingSends(waiting) =>
      if h :| h in waiting && h in s.http.sends {
        assert Enabled(s, EndSend(h));
      } else {
        assert Enabled(s, SendsSettled);
      }
    case WaitingAdoptions(waiting) =>
      if h :| h in waiting && h in s.http.adoptions {
        assert Enabled(s, EndAdoption(h));
      } else {
        assert Enabled(s, AdoptionsSettled);
      }
  }

  ghost predicate ServeInv(s: State) {
    && (s.pc.Serving? || s.memo ==> s.res.engine && s.res.db != Absent)
    && (s.pc.Serving? || (s.memo && !s.pc.Done?) ==> s.res.listening)
    && (s.pc.Booting? ==> !s.res.listening)
  }

  lemma ServeKept(s: State, e: Step)
    requires AdmitInv(s) && GivenInv(s) && ServeInv(s) && Enabled(s, e)
    ensures ServeInv(Apply(s, e))
  {
    if !s.pc.Booting? {
      TeardownRes(s, e);
    }
  }

  /** A server that serves, or is shutting down and not done, has its engine, its database and its
      listener up; during startup nothing listens. */
  lemma {:induction false} ServingServes(states: seq<State>, steps: seq<Step>, k: nat)
    requires Run(states, steps) && k < |states|
    ensures ServeInv(states[k])
  {
    if k > 0 {
      ServingServes(states, steps, k - 1);
      RunKeeps(states, steps, k - 1);
      ServeKept(states[k - 1], steps[k - 1]);
    }
  }

  ghost predicate RefuseInv(s: State) {
    && (s.pc.WaitingSends? ==> !s.http.admitSends)
    && (s.pc.WaitingAdoptions? || (s.memo && (s.pc.ClosingListener? || s.pc.Done?)) ==>
          !s.http.admitSends && !s.http.admitAdoptions)
  }

  lemma RefuseKept(s: State, e: Step)
    requires AdmitInv(s) && RefuseInv(s) && Enabled(s, e)
    ensures RefuseInv(Apply(s, e))
  {
  }

  /** While teardown waits for the sends none is admitted any more, and once it waits for the
      adoptions or closes the stores neither is. */
  lemma {:induction false} RefusesWhileWaiting(states: seq<State>, steps: seq<Step>, k: nat)
    requires Run(states, steps) && k < |states|
    ensures RefuseInv(states[k])
  {
    if k > 0 {
      RefusesWhileWaiting(states, steps, k - 1);
      RunKeeps(states, steps, k - 1);
      RefuseKept(states[k - 1], steps[k - 1]);
    }
  }
}
