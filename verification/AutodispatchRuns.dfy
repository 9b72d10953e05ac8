/**
 What the auto-dispatch protocol promises over whole runs: for every configuration,
 every new service and every sequence of steps.
 */
module AutodispatchRuns {
  import opened Options
  import opened Kernel
  import opened BackgroundGate
  import opened Autodispatch
  import opened AutodispatchSafety

  // ----- no lost wake -----

  ghost predicate Lost(s: State) {
    && s.queue.pending != [] && s.queue.drains == map[] && !s.stopped && s.owed == 0
    && s.gate.holder.None?
  }

  lemma WakeStaysRegistered(c: Config, s: State, e: Step)
    requires OWN_WAKE in s.gate.wakes || s.stopped
    requires e != Outside(ShutdownGate) || s.stopped
    ensures OWN_WAKE in Next(c, s, e).gate.wakes || Next(c, s, e).stopped
  {
    if Enabled(s, e) && e.OfDrain? {
      assert DrainEffect(c, s, e.drain, e.d).gate.wakes == s.gate.wakes;
    }
  }

  /** The gate is shut down only after the service has been stopped, as server teardown does. */
  ghost predicate ShutDownLast(c: Config, s: State, es: seq<Step>) {
    forall k :: 0 <= k < |es| && es[k] == Outside(ShutdownGate) ==> Run(c, s, es[..k]).stopped
  }

  lemma {:induction false} WakeRegistered(c: Config, s: State, es: seq<Step>)
    requires Initial(s) && ShutDownLast(c, s, es)
    ensures OWN_WAKE in Run(c, s, es).gate.wakes || Run(c, s, es).stopped
  {
    if es != [] {
      var n := |es| - 1;
      forall k | 0 <= k < n && es[..n][k] == Outside(ShutdownGate) ensures Run(c, s, es[..n][..k]).stopped {
        assert es[..n][..k] == es[..k];
      }
      WakeRegistered(c, s, es[..n]);
      WakeStaysRegistered(c, Run(c, s, es[..n]), es[n]);
    }
  }

  /** As long as the gate is not shut down under it, a service never sits on queued
      work with no drain running, no wake coming and the slot free. */
  lemma NoLostWake(c: Config, s: State, es: seq<Step>)
    requires Initial(s) && ShutDownLast(c, s, es)
    ensures !Lost(Run(c, s, es))
  {
    AlwaysInv(c, s, es);
    WakeRegistered(c, s, es);
  }

  lemma WakeExact(c: Config, s: State, e: Step)
    requires !Next(c, s, e).stopped
    ensures OWN_WAKE in Next(c, s, e).gate.wakes <==> OWN_WAKE in s.gate.wakes && e != Outside(ShutdownGate)
  {
    if Enabled(s, e) {
      match e
      case OfDrain(d, n) => assert DrainEffect(c, s, d, n).gate.wakes == s.gate.wakes;
      case OfIntake(t, i) => assert IntakeEffect(c, s, t, i).gate.wakes == s.gate.wakes;
      case _ =>
    }
  }

  /** While the service runs, its wake is registered exactly if the gate was never shut down. */
  lemma {:induction false} RegisteredIffNoShutdown(c: Config, s: State, es: seq<Step>)
    requires Initial(s) && !Run(c, s, es).stopped
    ensures OWN_WAKE in Run(c, s, es).gate.wakes <==> Outside(ShutdownGate) !in es
  {
    if es != [] {
      var n := |es| - 1;
      var before := Run(c, s, es[..n]);
      WakeExact(c, before, es[n]);
      assert es == es[..n] + [es[n]];
      StopStays(c, before, es[n]);
      RegisteredIffNoShutdown(c, s, es[..n]);
    }
  }

  lemma StopStays(c: Config, s: State, e: Step)
    ensures s.stopped ==> Next(c, s, e).stopped
  {
    if Enabled(s, e) && e.Outside? {
      OutsideFrame(s, e.o);
    }
  }

  /** With work queued behind another service's lease, and nothing of this service under way,
      the release of that lease loses the work exactly if the wake is not registered. */
  lemma ReleaseLosesIffUnregistered(c: Config, s: State)
    requires Inv(s) && s.queue.pending != [] && s.queue.drains == map[] && !s.stopped && s.owed == 0
    requires s.gate.holder.Some? && s.gate.holder.value.token !in s.intakes
    ensures Lost(Next(c, s, Outside(ReleaseGate(s.gate.holder.value.token)))) <==> OWN_WAKE !in s.gate.wakes
  {
  }

  /** So in every run that comes to such a state, a shutdown of the gate before the release,
      and nothing else, loses the work; reopening the gate does not bring it back. */
  lemma ShutdownLosesWake(c: Config, s: State, es: seq<Step>, token: nat)
    requires Initial(s)
    requires var t := Run(c, s, es);
             && t.queue.pending != [] && t.queue.drains == map[] && !t.stopped && t.owed == 0
             && t.gate.holder.Some? && t.gate.holder.value.token == token && token !in t.intakes
    ensures Lost(Run(c, s, es + [Outside(ReleaseGate(token))])) <==> Outside(ShutdownGate) in es
    ensures var lost := Run(c, s, es + [Outside(ShutdownGate)] + [Outside(ReleaseGate(token))] + [Outside(ReopenGate)]);
            Lost(lost) && !lost.gate.closed
  {
    var t := Run(c, s, es);
    AlwaysInv(c, s, es);
    RegisteredIffNoShutdown(c, s, es);
    ReleaseLosesIffUnregistered(c, t);
    RunSnoc(c, s, es, Outside(ReleaseGate(token)));
    var es1, es2 := es + [Outside(ShutdownGate)], es + [Outside(ShutdownGate)] + [Outside(ReleaseGate(token))];
    RunSnoc(c, s, es, Outside(ShutdownGate));
    RunSnoc(c, s, es1, Outside(ReleaseGate(token)));
    RunSnoc(c, s, es2, Outside(ReopenGate));
    ShutDownReleaseReopen(c, t, token);
  }

  lemma ShutDownReleaseReopen(c: Config, t: State, token: nat)
    requires t.queue.pending != [] && t.queue.drains == map[] && !t.stopped && t.owed == 0
    requires Holds(t.gate, token) && token !in t.intakes
    ensures var released := Next(c, Next(c, t, Outside(ShutdownGate)), Outside(ReleaseGate(token)));
            var lost := Next(c, released, Outside(ReopenGate));
            Lost(lost) && !lost.gate.closed
  {
    var u := Next(c, t, Outside(ShutdownGate));
    assert u == t.(gate := ShutDown(t.gate), steps := t.steps + 1);
    var v := Next(c, u, Outside(ReleaseGate(token)));
    assert v == u.(gate := u.gate.(holder := None), steps := u.steps + 1);
  }

  lemma RunSnoc(c: Config, s: State, es: seq<Step>, e: Step)
    ensures Run(c, s, es + [e]) == Next(c, Run(c, s, es), e)
  {
    assert (es + [e])[..|es|] == es;
  }

  /** When the slot is freed, by whichever service held it, the wake it owes brings a
      drain to the queue, or drops the queue if the gate is closed by then. */
  lemma ReleaseRedrives(c: Config, s: State, release: Step)
    requires Inv(s) && s.queue.pending != [] && s.queue.drains == map[] && !s.stopped
    requires OWN_WAKE in s.gate.wakes && s.gate.holder.Some?
    requires release == OfIntake(s.gate.holder.value.token, FreeLease)
          || release == Outside(ReleaseGate(s.gate.holder.value.token))
    requires Enabled(s, release)
    ensures var t := Next(c, Next(c, s, release), Wake);
            && t.gate.holder.None?
            && if s.gate.closed then t.queue.pending == []
               else t.queue.pending == s.queue.pending && SomeDrainRuns(t.queue)
  {
    var m := Next(c, s, release);
    var t := Next(c, m, Wake);
    assert m.owed > 0 && m.queue == s.queue;
    if !s.gate.closed {
      assert s.queue.nextDrain in t.queue.drains && t.queue.drains[s.queue.nextDrain].pc.Looping?;
    }
  }

  // ----- where intents come from -----

  predicate Invalidating(e: Step) {
    e.Foreground? || e.Stop?
  }

  /** A pending intent was pending or has just been captured; an active, unaborted
      intake was one before or was the pending intent just admitted. */
  ghost predicate Sourced(s: State, e: Step, t: State) {
    && (forall p :: p in t.queue.pending ==>
          p in s.queue.pending || (e.Notify? && Capture(s.repo, e.run, s.steps) == Some(p)))
    && (forall k :: k in t.intakes && Active(t.intakes[k]) && !t.intakes[k].aborted ==>
          || (k in s.intakes && s.intakes[k].p == t.intakes[k].p && Active(s.intakes[k]) && !s.intakes[k].aborted)
          || t.intakes[k].p in s.queue.pending)
  }

  lemma SourcedDrain(c: Config, s: State, d: nat, e: DrainStep)
    requires DrainEnabled(s, d, e)
    ensures Sourced(s, OfDrain(d, e), DrainEffect(c, s, d, e))
  {
  }

  lemma SourcedIntake(c: Config, s: State, token: nat, e: IntakeStep)
    requires token in s.intakes && IntakeEnabled(s.intakes[token], e)
    ensures Sourced(s, OfIntake(token, e), IntakeEffect(c, s, token, e))
  {
    var i := s.intakes[token];
    AdvanceKeepsIntent(c, Fence(c, s, i.aborted, i.p), token, i, s.effects, e);
  }

  lemma SourcedStep(c: Config, s: State, e: Step)
    ensures Sourced(s, e, Next(c, s, e))
  {
    if Enabled(s, e) {
      match e
      case OfDrain(d, n) => SourcedDrain(c, s, d, n);
      case OfIntake(t, i) => SourcedIntake(c, s, t, i);
      case Outside(o) => OutsideFrame(s, o);
      case _ =>
    }
  }

  /** `p` is what the notification at step `p.born` captured, and since then there was
      no foreground activity and no stop. */
  ghost predicate Fresh(c: Config, s: State, es: seq<Step>, p: Pending) {
    && p.born < |es| && es[p.born] == Notify(p.runId)
    && Capture(Run(c, s, es[..p.born]).repo, p.runId, p.born) == Some(p)
    && forall k :: p.born < k < |es| ==> !Invalidating(es[k])
  }

  lemma FreshExtends(c: Config, s: State, es: seq<Step>, e: Step, p: Pending)
    requires Fresh(c, s, es, p) && !Invalidating(e)
    ensures Fresh(c, s, es + [e], p)
  {
    assert (es + [e])[..p.born] == es[..p.born];
  }

  lemma InvalidatingEmpties(c: Config, s: State, e: Step)
    requires StopInv(s) && Invalidating(e)
    ensures Next(c, s, e).queue.pending == []
    ensures forall k :: k in Next(c, s, e).intakes && Active(Next(c, s, e).intakes[k]) ==>
              Next(c, s, e).intakes[k].aborted
  {
  }

  /** Everything queued, and every active intake not aborted, is fresh. */
  lemma {:induction false} IntentsAreFresh(c: Config, s: State, es: seq<Step>)
    requires Initial(s)
    ensures forall p :: p in Run(c, s, es).queue.pending ==> Fresh(c, s, es, p)
    ensures forall k :: k in Run(c, s, es).intakes ==>
              var i := Run(c, s, es).intakes[k]; (Active(i) && !i.aborted ==> Fresh(c, s, es, i.p))
  {
    if es != [] {
      var n := |es| - 1;
      var before, e := es[..n], es[n];
      var b := Run(c, s, before);
      IntentsAreFresh(c, s, before);
      AlwaysInv(c, s, before);
      assert es == before + [e];
      if Invalidating(e) {
        InvalidatingEmpties(c, b, e);
      } else {
        SourcedStep(c, b, e);
        forall p | Fresh(c, s, before, p) ensures Fresh(c, s, es, p) {
          FreshExtends(c, s, before, e, p);
        }
        forall p | p in Run(c, s, es).queue.pending ensures Fresh(c, s, es, p) {
          if p !in b.queue.pending {
            assert es[..n] == before;
          }
        }
      }
    }
  }

  lemma EvolvesAt(c: Config, s: State, es: seq<Step>, j: nat)
    requires j < |es|
    ensures Evolves(Run(c, s, es[..j]).repo, Run(c, s, es[..j + 1]).repo)
  {
    assert es[..j + 1][..j] == es[..j];
    var b := Run(c, s, es[..j]);
    if Enabled(b, es[j]) {
      RepoFrame(c, b, es[j]);
    }
  }

  lemma {:induction false} RunEvolves(c: Config, s: State, es: seq<Step>, i: nat, j: nat)
    requires i <= j <= |es|
    ensures Evolves(Run(c, s, es[..i]).repo, Run(c, s, es[..j]).repo)
  {
    if i < j {
      RunEvolves(c, s, es, i, j - 1);
      EvolvesAt(c, s, es, j - 1);
      EvolvesTransitive(Run(c, s, es[..i]).repo, Run(c, s, es[..j - 1]).repo, Run(c, s, es[..j]).repo);
    }
  }

  // ----- the whole-interval fence -----

  /** Step `m` calls `authorizeAutodispatch` for the intake of `token`. */
  ghost predicate Grants(c: Config, s: State, es: seq<Step>, m: nat, token: nat) {
    && m < |es| && es[m].OfIntake? && es[m].token == token && es[m].i.Authorize?
    && Run(c, s, es[..m + 1]).effects.granted[token] > Run(c, s, es[..m]).effects.granted[token]
  }

  lemma GrantPassesFence(c: Config, s: State, es: seq<Step>, m: nat, token: nat)
    requires Grants(c, s, es, m, token)
    ensures var t := Run(c, s, es[..m]);
            token in t.intakes && t.intakes[token].phase.Ready?
            && Fence(c, t, t.intakes[token].aborted, t.intakes[token].p).Some?
  {
    assert es[..m + 1][..m] == es[..m];
    var t := Run(c, s, es[..m]);
    assert Run(c, s, es[..m + 1]) == Next(c, t, es[m]);
  }

  /** Whenever a grant is asked for, its intent is the one captured at notification;
      the control record and the policy are unchanged, unpaused and active at every
      moment in between; there was no foreground activity or stop in between; and the
      service is not stopped, the intake not aborted and the gate not closed. */
  lemma WholeIntervalFence(c: Config, s: State, es: seq<Step>, m: nat, token: nat)
    requires Initial(s) && Grants(c, s, es, m, token)
    ensures var t := Run(c, s, es[..m]);
            && token in t.intakes && !t.stopped && !t.intakes[token].aborted && !t.gate.closed
            && var p := t.intakes[token].p;
               && Fresh(c, s, es[..m], p)
               && forall k :: p.born <= k <= m ==>
                    SameAuthority(Run(c, s, es[..p.born]).repo, Run(c, s, es[..k]).repo, p.policyId)
  {
    var t := Run(c, s, es[..m]);
    GrantPassesFence(c, s, es, m, token);
    IntentsAreFresh(c, s, es[..m]);
    var p := t.intakes[token].p;
    assert Fresh(c, s, es[..m], p);
    assert es[..m][..p.born] == es[..p.born];
    AlwaysInv(c, s, es[..p.born]);
    forall k | p.born <= k <= m
      ensures SameAuthority(Run(c, s, es[..p.born]).repo, Run(c, s, es[..k]).repo, p.policyId)
    {
      RunEvolves(c, s, es, p.born, k);
      RunEvolves(c, s, es, k, m);
      FenceSpansInterval(Run(c, s, es[..p.born]).repo, Run(c, s, es[..k]).repo, t.repo, p);
    }
  }

  // ----- permanent invalidation -----

  ghost predicate Remembers(a: Queue, b: Queue) {
    && (forall x :: x in a.accepted ==> x in b.accepted && b.accepted[x] == a.accepted[x])
    && (forall x :: x in a.dropped ==> x in b.dropped)
  }

  /** What one step does to the queue's memory: accept the run it notifies of, or
      nothing; then possibly drop. */
  lemma QueueOutcome(c: Config, s: State, e: Step) returns (mid: Queue)
    ensures mid == s.queue ||
            (e.Notify? && e.run !in s.queue.seen && mid.accepted == s.queue.accepted[s.steps := e.run]
             && mid.dropped == s.queue.dropped)
    ensures Next(c, s, e).queue.accepted == mid.accepted
    ensures mid.dropped <= Next(c, s, e).queue.dropped
  {
    mid := s.queue;
    if Enabled(s, e) {
      match e
      case Notify(run) =>
        var p := Capture(s.repo, run, s.steps);
        if !s.stopped && c.enabled && c.hasPlanner && run !in s.queue.seen && p.Some? {
          mid := Accept(s.queue, p.value);
          RequestDrainDrops(mid, s.stopped, s.gate.closed);
        }
      case Wake => RequestDrainDrops(s.queue, s.stopped, s.gate.closed);
      case OfDrain(d, n) => DrainOutcome(c, s, d, n);
      case OfIntake(t, i) =>
      case Outside(o) => OutsideFrame(s, o);
      case Foreground =>
      case Stop =>
      case StopSettled =>
    }
  }

  lemma DrainOutcome(c: Config, s: State, d: nat, e: DrainStep)
    requires DrainEnabled(s, d, e)
    ensures DrainEffect(c, s, d, e).queue.accepted == s.queue.accepted
    ensures s.queue.dropped <= DrainEffect(c, s, d, e).queue.dropped
  {
    UnwindDrops(s.queue, d, s.stopped, s.gate.closed);
  }

  lemma RemembersStep(c: Config, s: State, e: Step)
    requires QueueInv(s)
    ensures Remembers(s.queue, Next(c, s, e).queue)
  {
    var mid := QueueOutcome(c, s, e);
    var r := Next(c, s, e).queue;
    forall x | x in s.queue.dropped ensures x in r.dropped {
      var i :| 0 <= i < |s.queue.dropped| && s.queue.dropped[i] == x;
      assert r.dropped[i] == x;
    }
  }

  lemma RemembersAt(c: Config, s: State, es: seq<Step>, j: nat)
    requires Initial(s) && j < |es|
    ensures Remembers(Run(c, s, es[..j]).queue, Run(c, s, es[..j + 1]).queue)
  {
    assert es[..j + 1][..j] == es[..j];
    AlwaysInv(c, s, es[..j]);
    RemembersStep(c, Run(c, s, es[..j]), es[j]);
  }

  lemma {:induction false} RunRemembers(c: Config, s: State, es: seq<Step>, i: nat, j: nat)
    requires Initial(s) && i <= j <= |es|
    ensures Remembers(Run(c, s, es[..i]).queue, Run(c, s, es[..j]).queue)
  {
    if i < j {
      RunRemembers(c, s, es, i, j - 1);
      RemembersAt(c, s, es, j - 1);
    }
  }

  ghost predicate Queued(s: State, run: RunId) {
    exists i :: 0 <= i < |s.queue.pending| && s.queue.pending[i].runId == run
  }

  ghost predicate Admitted(s: State, run: RunId) {
    exists t :: t in s.intakes && s.intakes[t].p.runId == run
  }

  /** A run queued or admitted when foreground activity or a stop arrives is never
      granted afterwards. */
  lemma InvalidationIsPermanent(c: Config, s: State, es: seq<Step>, k: nat, m: nat, token: nat)
    requires Initial(s) && k < m && Grants(c, s, es, m, token) && Invalidating(es[k])
    ensures token in Run(c, s, es[..m]).intakes
    ensures var run, then_ := Run(c, s, es[..m]).intakes[token].p.runId, Run(c, s, es[..k]);
            !Queued(then_, run) && !Admitted(then_, run)
  {
    WholeIntervalFence(c, s, es, m, token);
    var now, then_ := Run(c, s, es[..m]), Run(c, s, es[..k]);
    var p := now.intakes[token].p;
    assert es[..m][k] == es[k] && k < p.born;
    AlwaysInv(c, s, es[..k]);
    AlwaysInv(c, s, es[..m]);
    RunRemembers(c, s, es, k, m);
    assert AcceptedAs(now.queue, p);
    BornLater(then_, now, p);
  }

  /** An intent accepted later is for a run that was neither queued nor admitted. */
  lemma BornLater(then_: State, now: State, p: Pending)
    requires QueueInv(then_) && QueueInv(now) && Remembers(then_.queue, now.queue)
    requires AcceptedAs(now.queue, p) && then_.steps <= p.born
    ensures !Queued(then_, p.runId) && !Admitted(then_, p.runId)
  {
    forall q | AcceptedAs(then_.queue, q) ensures q.runId != p.runId {
      assert q.born in now.queue.accepted;
    }
  }

  /** Steps in which the service looks at the gate and finds it closed. */
  ghost predicate ObservesClosure(c: Config, s: State, e: Step) {
    && s.gate.closed && !s.stopped
    && match e
       case Wake => s.owed > 0
       case Notify(run) => c.enabled && c.hasPlanner && run !in s.queue.seen && Capture(s.repo, run, s.steps).Some?
       case OfDrain(d, n) => (n.Turn? || n.Unwind?) && DrainEnabled(s, d, n)
       case _ => false
  }

  lemma ClosureDrops(c: Config, s: State, e: Step)
    requires ObservesClosure(c, s, e)
    ensures Next(c, s, e).queue.pending == []
    ensures forall i :: 0 <= i < |s.queue.pending| ==> s.queue.pending[i].born in Next(c, s, e).queue.dropped
  {
    forall i | 0 <= i < |s.queue.pending| ensures s.queue.pending[i].born in Births(s.queue.pending) {
      assert Births(s.queue.pending)[i] == s.queue.pending[i].born;
    }
    if e.Notify? {
      var r := Accept(s.queue, Capture(s.repo, e.run, s.steps).value);
      forall i | 0 <= i < |s.queue.pending| ensures s.queue.pending[i].born in Births(r.pending) {
        assert Births(r.pending)[i] == s.queue.pending[i].born;
      }
    }
  }

  /** Once the service has seen the gate closed, nothing queued at that moment is ever
      admitted, whatever follows: a reopened gate, a duplicate notification. */
  lemma ClosureIsPermanent(c: Config, s: State, es: seq<Step>, k: nat, m: nat, run: RunId)
    requires Initial(s) && k < m <= |es| && ObservesClosure(c, Run(c, s, es[..k]), es[k])
    requires Queued(Run(c, s, es[..k]), run)
    ensures !Admitted(Run(c, s, es[..m]), run) && !Queued(Run(c, s, es[..m]), run)
  {
    var then_, now := Run(c, s, es[..k]), Run(c, s, es[..m]);
    var i :| 0 <= i < |then_.queue.pending| && then_.queue.pending[i].runId == run;
    var q := then_.queue.pending[i];
    assert es[..k + 1][..k] == es[..k];
    ClosureDrops(c, then_, es[k]);
    AlwaysInv(c, s, es[..k]);
    AlwaysInv(c, s, es[..m]);
    RunRemembers(c, s, es, k + 1, m);
    RunRemembers(c, s, es, k, m);
    assert AcceptedAs(then_.queue, q);
    DroppedForGood(now, q);
  }

  /** A run whose accepted intent was dropped is neither queued nor admitted. */
  lemma DroppedForGood(now: State, q: Pending)
    requires QueueInv(now) && q.born in now.queue.dropped
    requires q.born in now.queue.accepted && now.queue.accepted[q.born] == q.runId
    ensures !Queued(now, q.runId) && !Admitted(now, q.runId)
  {
    forall p | AcceptedAs(now.queue, p) ensures p.runId != q.runId {
    }
  }

  // ----- at most once, in order, one at a time -----

  lemma {:induction false} AcceptedWereNotified(c: Config, s: State, es: seq<Step>, b: nat)
    requires Initial(s) && b in Run(c, s, es).queue.accepted
    ensures b < |es| && es[b] == Notify(Run(c, s, es).queue.accepted[b])
  {
    var n := |es| - 1;
    var before := Run(c, s, es[..n]);
    AlwaysInv(c, s, es[..n]);
    AcceptedGrowsByNotify(c, before, es[n]);
    if b in before.queue.accepted {
      AcceptedWereNotified(c, s, es[..n], b);
      RemembersStep(c, before, es[n]);
    }
  }

  lemma AcceptedGrowsByNotify(c: Config, s: State, e: Step)
    requires QueueInv(s)
    ensures forall b :: b in Next(c, s, e).queue.accepted && b !in s.queue.accepted ==>
              b == s.steps && e == Notify(Next(c, s, e).queue.accepted[b])
  {
    var mid := QueueOutcome(c, s, e);
  }

  /** Of two admitted intakes the earlier one was notified earlier, and for another
      run: each run is admitted at most once, in the order of notification. */
  lemma AdmittedOnceInOrder(c: Config, s: State, es: seq<Step>, t: nat, u: nat)
    requires Initial(s)
    requires t in Run(c, s, es).intakes && u in Run(c, s, es).intakes && t < u
    ensures var p, q := Run(c, s, es).intakes[t].p, Run(c, s, es).intakes[u].p;
            && p.runId != q.runId
            && p.born < q.born < |es| && es[p.born] == Notify(p.runId) && es[q.born] == Notify(q.runId)
  {
    var z := Run(c, s, es);
    AlwaysInv(c, s, es);
    assert AcceptedAs(z.queue, z.intakes[t].p) && AcceptedAs(z.queue, z.intakes[u].p);
    AcceptedWereNotified(c, s, es, z.intakes[t].p.born);
    AcceptedWereNotified(c, s, es, z.intakes[u].p.born);
  }

  /** At most one intake is between admission and its `finally`, and the shared slot
      is its; this rests on the gate, not on how many drains are running. */
  lemma OneIntakeAtATime(c: Config, s: State, es: seq<Step>, t: nat, u: nat)
    requires Initial(s)
    requires t in Run(c, s, es).intakes && HoldsLease(Run(c, s, es).intakes[t])
    requires u in Run(c, s, es).intakes && HoldsLease(Run(c, s, es).intakes[u])
    ensures t == u && Holds(Run(c, s, es).gate, t)
  {
    AlwaysInv(c, s, es);
  }

  predicate UsesStorage(i: Intake) {
    i.phase.Planned? || i.phase.Preparing? || i.phase.Ready?
  }

  /** Preparations never overlap: from its room check until its grant an intake is the only one
      there, so the budget it was checked against is not spent by another. */
  lemma OnePreparation(c: Config, s: State, es: seq<Step>, t: nat, u: nat)
    requires Initial(s) && t in Run(c, s, es).intakes && u in Run(c, s, es).intakes
    requires UsesStorage(Run(c, s, es).intakes[t]) && UsesStorage(Run(c, s, es).intakes[u])
    ensures t == u
  {
    OneIntakeAtATime(c, s, es, t, u);
  }

  /** When an intake is over, whatever ended it, its lease was given back exactly
      once, it made at most one plan and one grant call, and what it prepared was
      either kept or discarded. */
  lemma FinishedIntakesAreSettled(c: Config, s: State, es: seq<Step>, t: nat)
    requires Initial(s) && t in Run(c, s, es).intakes && Run(c, s, es).intakes[t].phase.Done?
    ensures var f := Run(c, s, es).effects;
            && f.freed[t] == 1 && !Holds(Run(c, s, es).gate, t)
            && f.planned[t] <= 1 && f.prepared[t] <= 1 && f.granted[t] <= 1
            && f.kept[t] + f.discarded[t] == f.prepared[t]
            && (f.kept[t] == 1 ==> f.granted[t] == 1)
  {
    AlwaysInv(c, s, es);
    assert Run(c, s, es).effects.freed[t] >= 0;
  }

  // ----- drains terminate -----

  /** A turn of a drain's loop that does not end it. */
  ghost predicate WorkingTurn(c: Config, s: State, e: Step) {
    && e.OfDrain? && e.d.Turn? && DrainEnabled(s, e.drain, e.d)
    && !DrainEffect(c, s, e.drain, e.d).queue.drains[e.drain].pc.Unwinding?
  }

  ghost function WorkingTurns(c: Config, s: State, es: seq<Step>): nat {
    if es == [] then 0
    else
      var before := es[..|es| - 1];
      WorkingTurns(c, s, before) + if WorkingTurn(c, Run(c, s, before), es[|es| - 1]) then 1 else 0
  }

  function Notifications(es: seq<Step>): nat {
    if es == [] then 0
    else Notifications(es[..|es| - 1]) + if es[|es| - 1].Notify? then 1 else 0
  }

  lemma TurnConsumes(c: Config, s: State, e: Step)
    requires QueueInv(s) && LeaseInv(s)
    ensures var t := Next(c, s, e);
            && |t.intakes| + |t.queue.dropped| >= |s.intakes| + |s.queue.dropped|
                                                + (if WorkingTurn(c, s, e) then 1 else 0)
            && |t.queue.accepted| <= |s.queue.accepted| + (if e.Notify? then 1 else 0)
  {
    var mid := QueueOutcome(c, s, e);
    IntakesNeverShrink(c, s, e);
    if WorkingTurn(c, s, e) {
      DrainConsumes(c, s, e.drain);
    }
  }

  lemma IntakesNeverShrink(c: Config, s: State, e: Step)
    requires LeaseInv(s)
    ensures |Next(c, s, e).intakes| >= |s.intakes|
  {
    if Enabled(s, e) {
      match e
      case OfDrain(d, n) => DrainAdmits(c, s, d, n);
      case OfIntake(t, i) => SameSize(s.intakes, IntakeEffect(c, s, t, i).intakes);
      case Outside(o) => OutsideFrame(s, o);
      case Foreground => SameSize(s.intakes, AbortActive(s.intakes));
      case Stop => SameSize(s.intakes, AbortActive(s.intakes));
      case _ =>
    }
  }

  lemma DrainAdmits(c: Config, s: State, d: nat, e: DrainStep)
    requires LeaseInv(s) && DrainEnabled(s, d, e)
    ensures |DrainEffect(c, s, d, e).intakes| == |s.intakes| + if e.Turn? && Admits(c, s) then 1 else 0
  {
    assert s.gate.nextToken !in s.intakes;
  }

  lemma SameSize<A, B>(a: map<A, B>, b: map<A, B>)
    requires a.Keys == b.Keys
    ensures |a| == |b|
  {
    assert |a| == |a.Keys| && |b| == |b.Keys|;
  }

  lemma DrainConsumes(c: Config, s: State, d: nat)
    requires LeaseInv(s) && WorkingTurn(c, s, OfDrain(d, Turn))
    ensures var t := DrainEffect(c, s, d, Turn);
            |t.intakes| + |t.queue.dropped| == |s.intakes| + |s.queue.dropped| + 1
  {
    DrainAdmits(c, s, d, Turn);
  }

  lemma {:induction false} TurnsAreConsumed(c: Config, s: State, es: seq<Step>)
    requires Initial(s)
    ensures var t := Run(c, s, es);
            && WorkingTurns(c, s, es) <= |t.intakes| + |t.queue.dropped|
            && |t.queue.accepted| <= Notifications(es)
  {
    if es != [] {
      TurnsAreConsumed(c, s, es[..|es| - 1]);
      AlwaysInv(c, s, es[..|es| - 1]);
      TurnConsumes(c, Run(c, s, es[..|es| - 1]), es[|es| - 1]);
    }
  }

  /** Over a whole run all drains together make at most one working turn for each
      notification, so with no new notification every drain ends. */
  lemma DrainsTerminate(c: Config, s: State, es: seq<Step>)
    requires Initial(s)
    ensures WorkingTurns(c, s, es) + |Run(c, s, es).queue.pending| <= Notifications(es)
  {
    TurnsAreConsumed(c, s, es);
    AlwaysInv(c, s, es);
  }

  // ----- stop -----

  /** What a stop freezes, and what a settled stop freezes. */
  ghost predicate Frozen(a: State, b: State) {
    && b.stopped && b.intakes.Keys == a.intakes.Keys
    && b.effects.planned == a.effects.planned && b.effects.granted == a.effects.granted
    && b.effects.kept == a.effects.kept
    && (a.settled ==> b.settled && b.intakes == a.intakes && b.effects == a.effects)
  }

  lemma StoppedStep(c: Config, s: State, e: Step)
    requires StopInv(s) && s.stopped
    ensures Frozen(s, Next(c, s, e))
  {
    if Enabled(s, e) {
      match e
      case OfIntake(t, i) =>
        AdvanceKeepsIntent(c, None, t, s.intakes[t], s.effects, i);
      case Outside(o) => OutsideFrame(s, o);
      case _ =>
    }
  }

  lemma StoppedAt(c: Config, s: State, es: seq<Step>, j: nat)
    requires Initial(s) && j < |es| && Run(c, s, es[..j]).stopped
    ensures Frozen(Run(c, s, es[..j]), Run(c, s, es[..j + 1]))
  {
    assert es[..j + 1][..j] == es[..j];
    AlwaysInv(c, s, es[..j]);
    StoppedStep(c, Run(c, s, es[..j]), es[j]);
  }

  /** From `stop` on nothing is admitted, no plan is created, no grant asked for and
      no materialization kept. */
  lemma {:induction false} StopIsFinal(c: Config, s: State, es: seq<Step>, k: nat, m: nat)
    requires Initial(s) && k <= m <= |es| && Run(c, s, es[..k]).stopped
    ensures Frozen(Run(c, s, es[..k]), Run(c, s, es[..m]))
  {
    if k < m {
      StopIsFinal(c, s, es, k, m - 1);
      StoppedAt(c, s, es, m - 1);
    }
  }

  /** When the stop promise has settled no intake is active, the service holds no
      lease, everything it prepared is settled, and nothing of that ever changes. */
  lemma StopQuiesces(c: Config, s: State, es: seq<Step>, k: nat, m: nat)
    requires Initial(s) && k <= m <= |es| && Run(c, s, es[..k]).settled
    ensures var a, b := Run(c, s, es[..k]), Run(c, s, es[..m]);
            && b.settled && b.intakes == a.intakes && b.effects == a.effects
            && forall t :: t in b.intakes ==>
                 && !Active(b.intakes[t]) && !Holds(b.gate, t) && b.effects.freed[t] == 1
                 && b.effects.kept[t] + b.effects.discarded[t] == b.effects.prepared[t]
  {
    AlwaysInv(c, s, es[..k]);
    StopIsFinal(c, s, es, k, m);
    AlwaysInv(c, s, es[..m]);
    SettledIsQuiet(Run(c, s, es[..m]));
  }

  lemma SettledIsQuiet(s: State)
    requires Inv(s) && s.settled
    ensures forall t :: t in s.intakes ==>
              && !Active(s.intakes[t]) && !Holds(s.gate, t) && s.effects.freed[t] == 1
              && s.effects.kept[t] + s.effects.discarded[t] == s.effects.prepared[t]
  {
    forall t | t in s.intakes ensures EffectsOf(s, t) {
      assert s.effects.freed[t] >= 0;
    }
  }
}
