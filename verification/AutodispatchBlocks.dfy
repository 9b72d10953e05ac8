/**
 The auto-dispatch protocol as a single thread runs it: everything between two `await`s is one
 block.  A started drain takes its turns, the first block of the intake it admits, that
 intake's release and the wake it owes, the drains this starts in turn, and the return that
 sets `drainTask`, before anything else runs.  Inside a block only the clock moves, and which
 tables can be read.  Each block is a sequence of steps of the protocol, so what holds of its
 runs holds here.
 */
module AutodispatchBlocks {
  import opened Options
  import opened Kernel
  import opened BackgroundGate
  import opened Autodispatch
  import opened AutodispatchSafety
  import opened AutodispatchRuns

  /** What a fence finds besides the stored data: the time, and the tables that cannot be read. */
  datatype Reading = Reading(now: int, unreadable: set<Table>)

  /** The reading at each step. */
  type Clock = nat -> Reading

  function ReadAt(repo: Repo, r: Reading): Repo {
    repo.(now := r.now, unreadable := r.unreadable)
  }

  /** A reading is taken. */
  ghost function Read(c: Config, s: State, clock: Clock): State {
    Next(c, s, Outside(World(ReadAt(s.repo, clock(s.steps)))))
  }

  lemma ReadIs(c: Config, s: State, clock: Clock)
    ensures Read(c, s, clock) == s.(repo := ReadAt(s.repo, clock(s.steps)), steps := s.steps + 1)
  {
  }

  ghost function TurnOf(c: Config, s: State, d: nat, clock: Clock): State {
    Next(c, Read(c, s, clock), OfDrain(d, Turn))
  }

  predicate AtTop(s: State, d: nat) {
    d in s.queue.drains && s.queue.drains[d].pc.Looping?
  }

  /** A turn leaves everything else about the drains and the wakes alone. */
  ghost predicate TurnFrame(s: State, t: State, d: nat) {
    && d in s.queue.drains && t.queue.drains.Keys == s.queue.drains.Keys
    && t.queue.drainTask == s.queue.drainTask && t.queue.nextDrain == s.queue.nextDrain
    && t.owed == s.owed && t.gate.wakes == s.gate.wakes && t.stopped == s.stopped
    && (forall e :: e in s.queue.drains && e != d ==> t.queue.drains[e] == s.queue.drains[e])
    && t.queue.drains[d].published == s.queue.drains[d].published
  }

  /** What one turn does to the drain that takes it. */
  lemma TurnOutcome(c: Config, s: State, d: nat, clock: Clock)
    requires AtTop(s, d)
    ensures var t := TurnOf(c, s, d, clock);
            && TurnFrame(s, t, d)
            && match t.queue.drains[d].pc
               case Looping => |t.queue.pending| < |s.queue.pending|
               case Unwinding => true
               case Awaiting(k) =>
                 && Admits(c, Read(c, s, clock)) && t == Tick(Admit(Read(c, s, clock), d))
                 && s.queue.pending != [] && t.queue.pending == s.queue.pending[1..]
                 && k in t.intakes && t.intakes[k] == Intake(s.queue.pending[0], Starting, false)
                 && Holds(t.gate, k) && !t.stopped && !t.gate.closed
  {
    ReadIs(c, s, clock);
    var r := Read(c, s, clock);
    if Admits(c, r) {
      AdmittedTurn(c, s, d, r);
    } else {
      TurnedAway(c, s, d, r);
    }
  }

  lemma AdmittedTurn(c: Config, s: State, d: nat, r: State)
    requires AtTop(s, d) && Admits(c, r) && r == s.(repo := r.repo, steps := r.steps)
    ensures var t, k := Next(c, r, OfDrain(d, Turn)), s.gate.nextToken;
            && t == Tick(Admit(r, d)) && TurnFrame(s, t, d) && t.queue.drains[d].pc == Awaiting(k)
            && t.queue.pending == s.queue.pending[1..] && Holds(t.gate, k)
            && k in t.intakes && t.intakes[k] == Intake(s.queue.pending[0], Starting, false)
  {
  }

  lemma TurnedAway(c: Config, s: State, d: nat, r: State)
    requires AtTop(s, d) && !Admits(c, r) && r == s.(repo := r.repo, steps := r.steps)
    ensures var t := Next(c, r, OfDrain(d, Turn));
            && TurnFrame(s, t, d) && !t.queue.drains[d].pc.Awaiting?
            && (t.queue.drains[d].pc.Looping? ==> |t.queue.pending| < |s.queue.pending|)
  {
    var q := TurnAway(c, r, d);
    assert Next(c, r, OfDrain(d, Turn)) == Tick(r.(queue := q));
    assert q.drains == r.queue.drains || q.drains == r.queue.drains[d := r.queue.drains[d].(pc := Unwinding)];
  }

  /** The intake just admitted starts: its first fence. */
  ghost function Entered(c: Config, s: State, k: nat, clock: Clock): State {
    Next(c, Read(c, s, clock), OfIntake(k, Begin))
  }

  predicate InPhase(s: State, k: nat, phase: Phase) {
    k in s.intakes && s.intakes[k].phase == phase
  }

  lemma EnteredIs(c: Config, s: State, k: nat, clock: Clock)
    requires InPhase(s, k, Starting)
    ensures var t, now := Entered(c, s, k, clock), ReadAt(s.repo, clock(s.steps));
            var passes := Fence(c, s.(repo := now), s.intakes[k].aborted, s.intakes[k].p).Some?;
            t == s.(repo := now, steps := s.steps + 2,
                    intakes := s.intakes[k := s.intakes[k].(phase := if passes then Proposing else Finishing)])
  {
    ReadIs(c, s, clock);
  }

  ghost function LeaseGiven(c: Config, s: State, k: nat): State {
    Next(c, s, OfIntake(k, FreeLease))
  }

  lemma FreedIs(c: Config, s: State, k: nat)
    requires InPhase(s, k, Finishing) && Holds(s.gate, k)
    ensures var t := LeaseGiven(c, s, k);
            && t.queue == s.queue && t.repo == s.repo && t.stopped == s.stopped
            && t.gate == s.gate.(holder := None)
            && t.owed == s.owed + (if OWN_WAKE in s.gate.wakes then 1 else 0)
            && InPhase(t, k, LeaseFreed)
  {
  }

  lemma WokenIs(c: Config, s: State)
    requires s.owed > 0
    ensures var t := Next(c, s, Wake);
            && t.queue == RequestDrain(s.queue, s.stopped, s.gate.closed)
            && t.owed == s.owed - 1 && t.gate == s.gate && t.intakes == s.intakes && t.repo == s.repo
            && t.stopped == s.stopped && |t.queue.pending| <= |s.queue.pending|
            && t.queue.nextDrain >= s.queue.nextDrain
            && (t.queue.nextDrain > s.queue.nextDrain ==> AtTop(t, s.queue.nextDrain))
  {
  }

  /** The synchronous part of drain `d`, from the top of its loop to its next `await`. */
  ghost function Prefix(c: Config, s: State, d: nat, clock: Clock): State
    requires AtTop(s, d)
    decreases |s.queue.pending|, 0
  {
    TurnOutcome(c, s, d, clock);
    var t := TurnOf(c, s, d, clock);
    match t.queue.drains[d].pc
    case Looping => Prefix(c, t, d, clock)
    case Unwinding => t
    case Awaiting(k) =>
      EnteredIs(c, t, k, clock);
      var b := Entered(c, t, k, clock);
      if b.intakes[k].phase.Finishing? then Leave(c, b, k, clock) else b
  }

  /** The `finally` of an intake: the release with its wake, and out of `active`. */
  ghost function Leave(c: Config, s: State, k: nat, clock: Clock): State
    requires InPhase(s, k, Finishing)
    decreases |s.queue.pending|, 3
  {
    Next(c, WakeAfter(c, LeaseGiven(c, s, k), clock), OfIntake(k, Remove))
  }

  /** The wake a release owes. */
  ghost function WakeAfter(c: Config, s: State, clock: Clock): State
    decreases |s.queue.pending|, 2
  {
    if s.owed == 0 then s
    else
      WokenIs(c, s);
      Launch(c, s, Next(c, s, Wake), clock)
  }

  /** If the step from `s` to `t` started a drain: its synchronous part, and the return that
      sets `drainTask`. */
  ghost function Launch(c: Config, s: State, t: State, clock: Clock): State
    decreases |t.queue.pending|, 1
  {
    if t.queue.nextDrain > s.queue.nextDrain && AtTop(t, s.queue.nextDrain) then
      Next(c, Prefix(c, t, s.queue.nextDrain, clock), OfDrain(s.queue.nextDrain, Publish))
    else t
  }

  // ----- how many drains a block leaves -----

  /** The first fence of the intake just admitted has failed, and its release will find work
      queued, the gate open, the wake registered, and no drain on record. */
  predicate Lapsed(b: State, k: nat) {
    && InPhase(b, k, Finishing)
    && b.queue.pending != [] && !b.gate.closed && !b.stopped && OWN_WAKE in b.gate.wakes && b.queue.drainTask.None?
  }

  /** After the release and its wake. */
  ghost function Relaunched(c: Config, b: State, k: nat): State {
    Next(c, LeaseGiven(c, b, k), Wake)
  }

  lemma RelaunchedIs(c: Config, b: State, k: nat)
    requires InPhase(b, k, Finishing) && Holds(b.gate, k) && OWN_WAKE in b.gate.wakes
    ensures LeaseGiven(c, b, k).owed == b.owed + 1
    ensures var w := Relaunched(c, b, k);
            && w.queue == RequestDrain(b.queue, b.stopped, b.gate.closed) && w.owed == b.owed
            && w.stopped == b.stopped && w.gate == b.gate.(holder := None)
  {
    FreedIs(c, b, k);
    WokenIs(c, LeaseGiven(c, b, k));
  }

  /** How many first fences in the block of drain `d` fail in that way. */
  ghost function Lapses(c: Config, s: State, d: nat, clock: Clock): nat
    requires AtTop(s, d)
    decreases |s.queue.pending|, 0
  {
    TurnOutcome(c, s, d, clock);
    var t := TurnOf(c, s, d, clock);
    match t.queue.drains[d].pc
    case Looping => Lapses(c, t, d, clock)
    case Unwinding => 0
    case Awaiting(k) =>
      EnteredIs(c, t, k, clock);
      var b := Entered(c, t, k, clock);
      EntryLapses(c, b, k, clock)
  }

  ghost function EntryLapses(c: Config, b: State, k: nat, clock: Clock): nat
    requires Holds(b.gate, k)
    decreases |b.queue.pending|, 1
  {
    if Lapsed(b, k) then
      RelaunchedIs(c, b, k);
      1 + Lapses(c, Relaunched(c, b, k), b.queue.nextDrain, clock)
    else 0
  }

  ghost predicate Numbered(q: Queue) {
    forall d :: d in q.drains ==> d < q.nextDrain
  }

  /** From `q` to `r` a block of drain `d` added `n` drains, all on record once, and brought `d`
      to an `await`. */
  ghost predicate Grew(q: Queue, r: Queue, d: nat, n: nat) {
    && d in q.drains && q.drains.Keys <= r.drains.Keys && |r.drains| == |q.drains| + n
    && Numbered(r) && r.nextDrain >= q.nextDrain
    && (forall e :: e in q.drains && e != d ==> r.drains[e] == q.drains[e])
    && r.drains[d].published == q.drains[d].published && !r.drains[d].pc.Looping?
    && (forall e :: e in r.drains && e !in q.drains ==> r.drains[e].published && !r.drains[e].pc.Looping?)
    && (n == 0 ==> r.drainTask == q.drainTask && r.drains.Keys == q.drains.Keys)
    && (n > 0 ==> r.drainTask.Some? && r.drainTask.value in r.drains && r.drains[r.drainTask.value].published)
  }

  lemma {:induction false} PrefixGrows(c: Config, s: State, d: nat, clock: Clock)
    requires AtTop(s, d) && s.owed == 0 && Numbered(s.queue)
    ensures var u := Prefix(c, s, d, clock);
            u.owed == 0 && Grew(s.queue, u.queue, d, Lapses(c, s, d, clock))
    decreases |s.queue.pending|, 0
  {
    TurnOutcome(c, s, d, clock);
    var t, u := TurnOf(c, s, d, clock), Prefix(c, s, d, clock);
    match t.queue.drains[d].pc {
      case Looping => PrefixGrows(c, t, d, clock);
      case Unwinding =>
      case Awaiting(k) => EntryGrows(c, t, d, k, clock);
    }
    TurnThenGrew(s, t, u.queue, d, Lapses(c, s, d, clock));
  }

  lemma TurnThenGrew(s: State, t: State, r: Queue, d: nat, n: nat)
    requires TurnFrame(s, t, d) && Grew(t.queue, r, d, n)
    ensures Grew(s.queue, r, d, n)
  {
    SameSize(s.queue.drains, t.queue.drains);
  }

  /** The rest of the block once drain `d` has admitted the intake of `k`. */
  lemma {:induction false} EntryGrows(c: Config, t: State, d: nat, k: nat, clock: Clock)
    requires InPhase(t, k, Starting) && Holds(t.gate, k) && t.owed == 0 && Numbered(t.queue)
    requires d in t.queue.drains && !t.queue.drains[d].pc.Looping?
    ensures InPhase(Entered(c, t, k, clock), k, Proposing) || InPhase(Entered(c, t, k, clock), k, Finishing)
    ensures var b := Entered(c, t, k, clock);
            var u := if b.intakes[k].phase.Finishing? then Leave(c, b, k, clock) else b;
            u.owed == 0 && Grew(t.queue, u.queue, d, EntryLapses(c, b, k, clock))
    decreases |t.queue.pending|, 1
  {
    EnteredIs(c, t, k, clock);
    var b := Entered(c, t, k, clock);
    if Lapsed(b, k) {
      RelaunchedIs(c, b, k);
      PrefixGrows(c, Relaunched(c, b, k), b.queue.nextDrain, clock);
      LeaveGrows(c, b, d, k, clock);
    } else if b.intakes[k].phase.Finishing? {
      LeaveKeeps(c, b, k, clock);
    }
  }

  lemma RemoveKeepsQueue(c: Config, s: State, k: nat)
    ensures var t := Next(c, s, OfIntake(k, Remove)); t.queue == s.queue && t.owed == s.owed && t.stopped == s.stopped
  {
  }

  /** A release that starts no drain. */
  lemma LeaveKeeps(c: Config, b: State, k: nat, clock: Clock)
    requires InPhase(b, k, Finishing) && Holds(b.gate, k) && b.owed == 0 && !Lapsed(b, k)
    ensures var u := Leave(c, b, k, clock);
            && u.owed == 0 && u.queue.drains == b.queue.drains && u.queue.drainTask == b.queue.drainTask
            && u.queue.nextDrain == b.queue.nextDrain
  {
    FreedIs(c, b, k);
    var f := LeaseGiven(c, b, k);
    if OWN_WAKE in b.gate.wakes {
      RelaunchedIs(c, b, k);
      assert Next(c, f, Wake).queue.nextDrain == f.queue.nextDrain;
      assert WakeAfter(c, f, clock) == Next(c, f, Wake);
    } else {
      assert WakeAfter(c, f, clock) == f;
    }
    RemoveKeepsQueue(c, WakeAfter(c, f, clock), k);
  }

  lemma PublishIs(c: Config, s: State, d: nat)
    requires d in s.queue.drains && !s.queue.drains[d].pc.Looping? && !s.queue.drains[d].published
    ensures var t := Next(c, s, OfDrain(d, Publish));
            && t.queue == s.queue.(drains := s.queue.drains[d := s.queue.drains[d].(published := true)],
                                   drainTask := Some(d))
            && t.owed == s.owed
  {
  }

  /** A release that starts a drain, given what that drain's own block does. */
  lemma LeaveGrows(c: Config, b: State, d: nat, k: nat, clock: Clock)
    requires Lapsed(b, k) && Holds(b.gate, k) && b.owed == 0 && Numbered(b.queue)
    requires d in b.queue.drains && !b.queue.drains[d].pc.Looping?
    requires AtTop(Relaunched(c, b, k), b.queue.nextDrain)
    requires var w := Relaunched(c, b, k);
             var v := Prefix(c, w, b.queue.nextDrain, clock);
             v.owed == 0 && Grew(w.queue, v.queue, b.queue.nextDrain, Lapses(c, w, b.queue.nextDrain, clock))
    ensures var u := Leave(c, b, k, clock);
            && u.owed == 0
            && Grew(b.queue, u.queue, d, 1 + Lapses(c, Relaunched(c, b, k), b.queue.nextDrain, clock))
  {
    var e := b.queue.nextDrain;
    RelaunchedIs(c, b, k);
    var w := Relaunched(c, b, k);
    assert w.queue == b.queue.(drains := b.queue.drains[e := Drain(Looping, false)], nextDrain := e + 1);
    var v := Prefix(c, w, e, clock);
    PublishIs(c, v, e);
    var p := Next(c, v, OfDrain(e, Publish));
    assert WakeAfter(c, LeaseGiven(c, b, k), clock) == p;
    RemoveKeepsQueue(c, p, k);
    LaunchGrew(b.queue, w.queue, v.queue, d, Lapses(c, w, e, clock));
  }

  predicate Launched(q: Queue, w: Queue) {
    w == q.(drains := q.drains[q.nextDrain := Drain(Looping, false)], nextDrain := q.nextDrain + 1)
  }

  /** A drain launched and brought to an `await` is one drain more, on record. */
  lemma LaunchGrew(q: Queue, w: Queue, v: Queue, d: nat, n: nat)
    requires Numbered(q) && Launched(q, w) && Grew(w, v, q.nextDrain, n)
    requires d in q.drains && !q.drains[d].pc.Looping?
    ensures q.nextDrain in v.drains
    ensures var e := q.nextDrain;
            var r := v.(drains := v.drains[e := v.drains[e].(published := true)], drainTask := Some(e));
            Grew(q, r, d, 1 + n)
  {
    var e := q.nextDrain;
    assert |w.drains| == |q.drains| + 1;
    SameSize(v.drains, v.drains[e := v.drains[e].(published := true)]);
  }

  // ----- calls from outside, each one block -----

  /** What can run next: a callback, the settling of a promise, or someone else. */
  datatype Call =
    | Completed(run: RunId)
    | Resumed(drain: nat)                              // the intake a drain awaits is done
    | Unwound(drain: nat)                              // the `finally` of a drain
    | PlannerSettled(token: nat, reply: PlanReply, retained: nat)
    | MaterializerSettled(token: nat, ok: bool, verdict: Verdict)
    | OtherRelease(token: nat)
    | Other(step: Step)

  predicate RunsAlone(e: Step) {
    e.Foreground? || e.Stop? || e.StopSettled? || (e.Outside? && !e.o.ReleaseGate?)
  }

  ghost predicate Callable(s: State, call: Call) {
    match call
    case Completed(_) => true
    case Resumed(d) => DrainEnabled(s, d, Resume)
    case Unwound(d) => DrainEnabled(s, d, Unwind)
    case PlannerSettled(k, _, _) => InPhase(s, k, Proposing)
    case MaterializerSettled(k, _, _) => k in s.intakes && s.intakes[k].phase.Preparing?
    case OtherRelease(k) => k !in s.intakes
    case Other(e) => RunsAlone(e) && Enabled(s, e)
  }

  /** From the planner's answer up to the call of the materializer. */
  ghost function Planning(c: Config, s: State, k: nat, reply: PlanReply, retained: nat, clock: Clock): State {
    var p := Next(c, Read(c, s, clock), OfIntake(k, Propose(reply)));
    if k in p.intakes && p.intakes[k].phase.Planned? then Next(c, Read(c, p, clock), OfIntake(k, CheckRoom(retained)))
    else p
  }

  /** From the materializer's answer up to the end of the body. */
  ghost function Granting(c: Config, s: State, k: nat, ok: bool, verdict: Verdict, clock: Clock): State {
    var p := Next(c, s, OfIntake(k, PrepareSettled(ok)));
    if k in p.intakes && p.intakes[k].phase.Ready? then Next(c, Read(c, p, clock), OfIntake(k, Authorize(verdict)))
    else p
  }

  ghost function LeaveIfOver(c: Config, s: State, k: nat, clock: Clock): State {
    if InPhase(s, k, Finishing) then Leave(c, s, k, clock) else s
  }

  /** The whole block of a call. */
  ghost function Do(c: Config, s: State, call: Call, clock: Clock): State
    requires Callable(s, call)
  {
    match call
    case Completed(run) => Launch(c, s, Next(c, s, Notify(run)), clock)
    case Resumed(d) => Prefix(c, Next(c, s, OfDrain(d, Resume)), d, clock)
    case Unwound(d) => Launch(c, s, Next(c, s, OfDrain(d, Unwind)), clock)
    case PlannerSettled(k, reply, retained) => LeaveIfOver(c, Planning(c, s, k, reply, retained, clock), k, clock)
    case MaterializerSettled(k, ok, verdict) => LeaveIfOver(c, Granting(c, s, k, ok, verdict, clock), k, clock)
    case OtherRelease(k) => WakeAfter(c, Next(c, s, Outside(ReleaseGate(k))), clock)
    case Other(e) => Next(c, s, e)
  }

  ghost function LaunchLapses(c: Config, s: State, t: State, clock: Clock): nat {
    if t.queue.nextDrain > s.queue.nextDrain && AtTop(t, s.queue.nextDrain)
    then Lapses(c, t, s.queue.nextDrain, clock) else 0
  }

  ghost function WakeLapses(c: Config, s: State, clock: Clock): nat {
    if s.owed == 0 then 0 else LaunchLapses(c, s, Next(c, s, Wake), clock)
  }

  ghost function LeaveLapses(c: Config, s: State, k: nat, clock: Clock): nat {
    if InPhase(s, k, Finishing) then WakeLapses(c, LeaseGiven(c, s, k), clock) else 0
  }

  /** How many first fences lapse in the block of a call. */
  ghost function LapsesIn(c: Config, s: State, call: Call, clock: Clock): nat
    requires Callable(s, call)
  {
    match call
    case Completed(run) => LaunchLapses(c, s, Next(c, s, Notify(run)), clock)
    case Resumed(d) => Lapses(c, Next(c, s, OfDrain(d, Resume)), d, clock)
    case Unwound(d) => LaunchLapses(c, s, Next(c, s, OfDrain(d, Unwind)), clock)
    case PlannerSettled(k, reply, retained) => LeaveLapses(c, Planning(c, s, k, reply, retained, clock), k, clock)
    case MaterializerSettled(k, ok, verdict) => LeaveLapses(c, Granting(c, s, k, ok, verdict, clock), k, clock)
    case OtherRelease(k) => WakeLapses(c, Next(c, s, Outside(ReleaseGate(k))), clock)
    case Other(_) => 0
  }

  /** At most one drain, and `drainTask` is that one. */
  ghost predicate OnRecord(q: Queue) {
    && Numbered(q)
    && (q.drainTask.None? ==> q.drains == map[])
    && (q.drainTask.Some? ==>
          && q.drains.Keys == {q.drainTask.value}
          && q.drains[q.drainTask.value].published && !q.drains[q.drainTask.value].pc.Looping?)
  }

  ghost predicate Between(s: State) {
    s.owed == 0 && OnRecord(s.queue)
  }

  /** Every drain has once been made `drainTask`, and is at an `await`. */
  ghost predicate AllRecorded(q: Queue) {
    forall d :: d in q.drains ==> q.drains[d].published && !q.drains[d].pc.Looping?
  }

  lemma OnRecordSize(q: Queue)
    requires OnRecord(q)
    ensures |q.drains| <= 1
  {
    if q.drainTask.Some? {
      assert |q.drains| == |q.drains.Keys|;
    }
  }

  /** What a launch from a queue without drains leaves. */
  lemma LaunchOutcome(c: Config, s: State, t: State, clock: Clock)
    requires s.queue.drains == map[] && t.owed == 0 && Numbered(t.queue) && t.queue.drainTask.None?
    requires t.queue.drains == map[s.queue.nextDrain := Drain(Looping, false)]
    requires t.queue.nextDrain == s.queue.nextDrain + 1
    ensures var u, n := Launch(c, s, t, clock), LaunchLapses(c, s, t, clock);
            && u.owed == 0 && |u.queue.drains| == 1 + n && (n == 0 ==> OnRecord(u.queue))
            && u.queue.drainTask == Some(s.queue.nextDrain) && AllRecorded(u.queue)
  {
    var e := s.queue.nextDrain;
    PrefixGrows(c, t, e, clock);
    var v := Prefix(c, t, e, clock);
    PublishIs(c, v, e);
    var u := Next(c, v, OfDrain(e, Publish));
    SameSize(v.queue.drains, u.queue.drains);
    assert u == Launch(c, s, t, clock);
    assert |t.queue.drains| == 1;
  }

  // ----- each call -----

  /** What a call did to the number of drains. */
  ghost predicate CountsLapses(u: State, n: nat) {
    && u.owed == 0 && (n == 0 ==> OnRecord(u.queue))
    && (n > 0 ==> |u.queue.drains| == 1 + n && u.queue.drainTask.Some? && AllRecorded(u.queue))
  }

  lemma RequestOnRecord(q: Queue, stopped: bool, closed: bool)
    requires OnRecord(q)
    ensures var r := RequestDrain(q, stopped, closed);
            || (r.nextDrain == q.nextDrain && OnRecord(r))
            || (q.drains == map[] && r.drainTask.None? && r.nextDrain == q.nextDrain + 1 && Numbered(r)
                && r.drains == map[q.nextDrain := Drain(Looping, false)])
  {
  }

  lemma CompletedCounts(c: Config, s: State, run: RunId, clock: Clock)
    requires Between(s)
    ensures CountsLapses(Do(c, s, Completed(run), clock), LapsesIn(c, s, Completed(run), clock))
  {
    var t := Next(c, s, Notify(run));
    var p := Capture(s.repo, run, s.steps);
    if p.Some? {
      RequestOnRecord(Accept(s.queue, p.value), s.stopped, s.gate.closed);
    }
    if t.queue.nextDrain > s.queue.nextDrain {
      LaunchOutcome(c, s, t, clock);
    }
  }

  lemma UnwoundCounts(c: Config, s: State, d: nat, clock: Clock)
    requires Between(s) && DrainEnabled(s, d, Unwind)
    ensures CountsLapses(Do(c, s, Unwound(d), clock), LapsesIn(c, s, Unwound(d), clock))
  {
    var t := Next(c, s, OfDrain(d, Unwind));
    var r := s.queue.(drains := map[], drainTask := None);
    assert s.queue.drains.Keys == {d};
    assert (map e | e in s.queue.drains && e != d :: s.queue.drains[e]) == map[];
    RequestOnRecord(r.(wakeRequested := false), s.stopped, s.gate.closed);
    if t.queue.nextDrain > s.queue.nextDrain {
      LaunchOutcome(c, s.(queue := r), t, clock);
    }
  }

  lemma {:induction false} RecordedNeverLapses(c: Config, s: State, d: nat, clock: Clock)
    requires AtTop(s, d) && s.queue.drainTask.Some?
    ensures Lapses(c, s, d, clock) == 0
    decreases |s.queue.pending|
  {
    TurnOutcome(c, s, d, clock);
    var t := TurnOf(c, s, d, clock);
    match t.queue.drains[d].pc
    case Looping => RecordedNeverLapses(c, t, d, clock);
    case Unwinding =>
    case Awaiting(k) => EnteredIs(c, t, k, clock);
  }

  lemma ResumedCounts(c: Config, s: State, d: nat, clock: Clock)
    requires Between(s) && DrainEnabled(s, d, Resume)
    ensures CountsLapses(Do(c, s, Resumed(d), clock), LapsesIn(c, s, Resumed(d), clock))
  {
    var t := Next(c, s, OfDrain(d, Resume));
    RecordedNeverLapses(c, t, d, clock);
    PrefixGrows(c, t, d, clock);
  }

  lemma WakeCounts(c: Config, s: State, clock: Clock)
    requires OnRecord(s.queue) && s.owed <= 1
    ensures CountsLapses(WakeAfter(c, s, clock), WakeLapses(c, s, clock))
  {
    if s.owed == 1 {
      WokenIs(c, s);
      RequestOnRecord(s.queue, s.stopped, s.gate.closed);
      if Next(c, s, Wake).queue.nextDrain > s.queue.nextDrain {
        LaunchOutcome(c, s, Next(c, s, Wake), clock);
      }
    }
  }

  lemma LeaveCounts(c: Config, s: State, k: nat, clock: Clock)
    requires Between(s)
    ensures CountsLapses(LeaveIfOver(c, s, k, clock), LeaveLapses(c, s, k, clock))
  {
    if InPhase(s, k, Finishing) {
      var f := LeaseGiven(c, s, k);
      assert f.queue == s.queue && f.owed <= 1;
      WakeCounts(c, f, clock);
      RemoveKeepsQueue(c, WakeAfter(c, f, clock), k);
    }
  }

  lemma IntakeKeepsQueue(c: Config, s: State, k: nat, e: IntakeStep)
    requires !e.FreeLease?
    ensures var t := Next(c, s, OfIntake(k, e)); t.queue == s.queue && t.owed == s.owed
  {
  }

  lemma BodyKeepsQueue(c: Config, s: State, k: nat, reply: PlanReply, retained: nat,
                       ok: bool, verdict: Verdict, clock: Clock)
    ensures var t := Planning(c, s, k, reply, retained, clock); t.queue == s.queue && t.owed == s.owed
    ensures var t := Granting(c, s, k, ok, verdict, clock); t.queue == s.queue && t.owed == s.owed
  {
    var r := Read(c, s, clock);
    ReadIs(c, s, clock);
    IntakeKeepsQueue(c, r, k, Propose(reply));
    var p := Next(c, r, OfIntake(k, Propose(reply)));
    ReadIs(c, p, clock);
    IntakeKeepsQueue(c, Read(c, p, clock), k, CheckRoom(retained));
    IntakeKeepsQueue(c, s, k, PrepareSettled(ok));
    var q := Next(c, s, OfIntake(k, PrepareSettled(ok)));
    ReadIs(c, q, clock);
    IntakeKeepsQueue(c, Read(c, q, clock), k, Authorize(verdict));
  }

  lemma OtherKeepsRecord(c: Config, s: State, e: Step)
    requires Between(s) && RunsAlone(e) && Enabled(s, e)
    ensures Between(Next(c, s, e))
  {
    if e.Outside? {
      OutsideFrame(s, e.o);
    }
  }

  /** From a state with at most one drain on record, the block of a call leaves one drain more for
      each first fence that lapses in it, and a state of that kind if none does. */
  lemma CallCounts(c: Config, s: State, call: Call, clock: Clock)
    requires Between(s) && Callable(s, call)
    ensures CountsLapses(Do(c, s, call, clock), LapsesIn(c, s, call, clock))
  {
    match call
    case Completed(run) => CompletedCounts(c, s, run, clock);
    case Resumed(d) => ResumedCounts(c, s, d, clock);
    case Unwound(d) => UnwoundCounts(c, s, d, clock);
    case PlannerSettled(k, reply, retained) =>
      BodyKeepsQueue(c, s, k, reply, retained, false, AuthorizeThrows, clock);
      LeaveCounts(c, Planning(c, s, k, reply, retained, clock), k, clock);
    case MaterializerSettled(k, ok, verdict) =>
      BodyKeepsQueue(c, s, k, PlannerFailed(false), 0, ok, verdict, clock);
      LeaveCounts(c, Granting(c, s, k, ok, verdict, clock), k, clock);
    case OtherRelease(k) =>
      var f := Next(c, s, Outside(ReleaseGate(k)));
      assert f.queue == s.queue && f.owed <= 1;
      WakeCounts(c, f, clock);
    case Other(e) => OtherKeepsRecord(c, s, e);
  }

  // ----- whole runs, block by block -----

  /** The state after each call; a call that cannot run changes nothing. */
  ghost function Blocks(c: Config, s: State, calls: seq<Call>, clock: Clock): State {
    if calls == [] then s
    else
      var before := Blocks(c, s, calls[..|calls| - 1], clock);
      if Callable(before, calls[|calls| - 1]) then Do(c, before, calls[|calls| - 1], clock) else before
  }

  /** Some first fence lapses in call `i` of the run. */
  ghost predicate LapsesAt(c: Config, s: State, calls: seq<Call>, clock: Clock, i: nat)
    requires i < |calls|
  {
    var before := Blocks(c, s, calls[..i], clock);
    Callable(before, calls[i]) && LapsesIn(c, before, calls[i], clock) > 0
  }

  lemma {:induction false} OnRecordUntilLapse(c: Config, s: State, calls: seq<Call>, clock: Clock)
    requires Initial(s)
    requires forall i :: 0 <= i < |calls| ==> !LapsesAt(c, s, calls, clock, i)
    ensures Between(Blocks(c, s, calls, clock))
  {
    if calls != [] {
      var n := |calls| - 1;
      forall i | 0 <= i < n ensures !LapsesAt(c, s, calls[..n], clock, i) {
        assert calls[..n][..i] == calls[..i];
        assert !LapsesAt(c, s, calls, clock, i);
      }
      OnRecordUntilLapse(c, s, calls[..n], clock);
      assert !LapsesAt(c, s, calls, clock, n);
      var before := Blocks(c, s, calls[..n], clock);
      if Callable(before, calls[n]) {
        CallCounts(c, before, calls[n], clock);
      }
    }
  }

  /** The service owns a single drain, between any two blocks of a run, exactly as long as in no
      block a first fence lapses: fails with intents still queued, the gate open, the wake
      registered, and its drain not yet recorded. */
  lemma SingleDrainIffNoLapse(c: Config, s: State, calls: seq<Call>, clock: Clock)
    requires Initial(s)
    ensures (forall k :: 0 <= k <= |calls| ==> |Blocks(c, s, calls[..k], clock).queue.drains| <= 1) <==>
            (forall i :: 0 <= i < |calls| ==> !LapsesAt(c, s, calls, clock, i))
  {
    if forall i :: 0 <= i < |calls| ==> !LapsesAt(c, s, calls, clock, i) {
      forall k | 0 <= k <= |calls| ensures |Blocks(c, s, calls[..k], clock).queue.drains| <= 1 {
        PrefixDoesNotLapse(c, s, calls, clock, k);
        OnRecordUntilLapse(c, s, calls[..k], clock);
        OnRecordSize(Blocks(c, s, calls[..k], clock).queue);
      }
    } else {
      var i :| 0 <= i < |calls| && LapsesAt(c, s, calls, clock, i);
      FirstLapseShows(c, s, calls, clock, i);
    }
  }

  lemma PrefixDoesNotLapse(c: Config, s: State, calls: seq<Call>, clock: Clock, k: nat)
    requires k <= |calls| && forall i :: 0 <= i < k ==> !LapsesAt(c, s, calls, clock, i)
    ensures forall i :: 0 <= i < k ==> !LapsesAt(c, s, calls[..k], clock, i)
  {
    forall i | 0 <= i < k ensures !LapsesAt(c, s, calls[..k], clock, i) {
      assert calls[..k][..i] == calls[..i];
      assert !LapsesAt(c, s, calls, clock, i);
    }
  }

  lemma {:induction false} FirstLapseShows(c: Config, s: State, calls: seq<Call>, clock: Clock, i: nat)
    requires Initial(s) && i < |calls| && LapsesAt(c, s, calls, clock, i)
    ensures exists k :: 0 <= k <= |calls| && |Blocks(c, s, calls[..k], clock).queue.drains| > 1
    decreases i
  {
    if j :| 0 <= j < i && LapsesAt(c, s, calls, clock, j) {
      FirstLapseShows(c, s, calls, clock, j);
    } else {
      PrefixDoesNotLapse(c, s, calls, clock, i);
      OnRecordUntilLapse(c, s, calls[..i], clock);
      CallCounts(c, Blocks(c, s, calls[..i], clock), calls[i], clock);
      assert calls[..i + 1][..i] == calls[..i];
      assert |Blocks(c, s, calls[..i + 1], clock).queue.drains| > 1;
    }
  }

  // ----- blocks are runs of the protocol -----

  ghost predicate Reached(c: Config, s: State, t: State) {
    exists es :: Run(c, s, es) == t
  }

  lemma ReachedNext(c: Config, s: State, t: State, e: Step)
    requires Reached(c, s, t)
    ensures Reached(c, s, Next(c, t, e))
  {
    var es :| Run(c, s, es) == t;
    RunSnoc(c, s, es, e);
  }

  lemma {:induction false} PrefixReached(c: Config, o: State, s: State, d: nat, clock: Clock)
    requires Reached(c, o, s) && AtTop(s, d)
    ensures Reached(c, o, Prefix(c, s, d, clock)) && Prefix(c, s, d, clock).steps > s.steps
    decreases |s.queue.pending|, 0
  {
    TurnOutcome(c, s, d, clock);
    var r, t := Read(c, s, clock), TurnOf(c, s, d, clock);
    ReachedNext(c, o, s, Outside(World(ReadAt(s.repo, clock(s.steps)))));
    ReachedNext(c, o, r, OfDrain(d, Turn));
    StepCounts(c, s, Outside(World(ReadAt(s.repo, clock(s.steps)))));
    StepCounts(c, r, OfDrain(d, Turn));
    match t.queue.drains[d].pc
    case Looping => PrefixReached(c, o, t, d, clock);
    case Unwinding =>
    case Awaiting(k) =>
      EnteredIs(c, t, k, clock);
      ReachedNext(c, o, t, Outside(World(ReadAt(t.repo, clock(t.steps)))));
      ReachedNext(c, o, Read(c, t, clock), OfIntake(k, Begin));
      var b := Entered(c, t, k, clock);
      if b.intakes[k].phase.Finishing? {
        LeaveReached(c, o, b, k, clock);
      }
  }

  lemma {:induction false} LeaveReached(c: Config, o: State, s: State, k: nat, clock: Clock)
    requires Reached(c, o, s) && InPhase(s, k, Finishing)
    ensures Reached(c, o, Leave(c, s, k, clock)) && Leave(c, s, k, clock).steps > s.steps
    decreases |s.queue.pending|, 3
  {
    ReachedNext(c, o, s, OfIntake(k, FreeLease));
    StepCounts(c, s, OfIntake(k, FreeLease));
    var f := LeaseGiven(c, s, k);
    assert f.queue == s.queue;
    WakeReached(c, o, f, clock);
    ReachedNext(c, o, WakeAfter(c, f, clock), OfIntake(k, Remove));
    StepCounts(c, WakeAfter(c, f, clock), OfIntake(k, Remove));
  }

  lemma {:induction false} WakeReached(c: Config, o: State, s: State, clock: Clock)
    requires Reached(c, o, s)
    ensures Reached(c, o, WakeAfter(c, s, clock)) && WakeAfter(c, s, clock).steps >= s.steps
    decreases |s.queue.pending|, 2
  {
    if s.owed > 0 {
      WokenIs(c, s);
      ReachedNext(c, o, s, Wake);
      StepCounts(c, s, Wake);
      LaunchReached(c, o, s, Next(c, s, Wake), clock);
    }
  }

  lemma {:induction false} LaunchReached(c: Config, o: State, s: State, t: State, clock: Clock)
    requires Reached(c, o, t)
    ensures Reached(c, o, Launch(c, s, t, clock)) && Launch(c, s, t, clock).steps >= t.steps
    decreases |t.queue.pending|, 1
  {
    var e := s.queue.nextDrain;
    if t.queue.nextDrain > e && AtTop(t, e) {
      PrefixReached(c, o, t, e, clock);
      ReachedNext(c, o, Prefix(c, t, e, clock), OfDrain(e, Publish));
      StepCounts(c, Prefix(c, t, e, clock), OfDrain(e, Publish));
    }
  }

  lemma BodyReached(c: Config, o: State, s: State, k: nat, reply: PlanReply, retained: nat,
                    ok: bool, verdict: Verdict, clock: Clock)
    requires Reached(c, o, s)
    ensures var t := Planning(c, s, k, reply, retained, clock); Reached(c, o, t) && t.steps > s.steps
    ensures var t := Granting(c, s, k, ok, verdict, clock); Reached(c, o, t) && t.steps > s.steps
  {
    var r := Read(c, s, clock);
    ReadIs(c, s, clock);
    ReachedNext(c, o, s, Outside(World(ReadAt(s.repo, clock(s.steps)))));
    ReachedNext(c, o, r, OfIntake(k, Propose(reply)));
    var p := Next(c, r, OfIntake(k, Propose(reply)));
    StepCounts(c, r, OfIntake(k, Propose(reply)));
    ReadIs(c, p, clock);
    ReachedNext(c, o, p, Outside(World(ReadAt(p.repo, clock(p.steps)))));
    ReachedNext(c, o, Read(c, p, clock), OfIntake(k, CheckRoom(retained)));
    StepCounts(c, Read(c, p, clock), OfIntake(k, CheckRoom(retained)));
    ReachedNext(c, o, s, OfIntake(k, PrepareSettled(ok)));
    var q := Next(c, s, OfIntake(k, PrepareSettled(ok)));
    StepCounts(c, s, OfIntake(k, PrepareSettled(ok)));
    ReadIs(c, q, clock);
    ReachedNext(c, o, q, Outside(World(ReadAt(q.repo, clock(q.steps)))));
    ReachedNext(c, o, Read(c, q, clock), OfIntake(k, Authorize(verdict)));
    StepCounts(c, Read(c, q, clock), OfIntake(k, Authorize(verdict)));
  }

  lemma DoReached(c: Config, o: State, s: State, call: Call, clock: Clock)
    requires Reached(c, o, s) && Callable(s, call)
    ensures Reached(c, o, Do(c, s, call, clock))
  {
    match call
    case Completed(run) =>
      ReachedNext(c, o, s, Notify(run));
      LaunchReached(c, o, s, Next(c, s, Notify(run)), clock);
    case Resumed(d) =>
      ReachedNext(c, o, s, OfDrain(d, Resume));
      PrefixReached(c, o, Next(c, s, OfDrain(d, Resume)), d, clock);
    case Unwound(d) =>
      ReachedNext(c, o, s, OfDrain(d, Unwind));
      LaunchReached(c, o, s, Next(c, s, OfDrain(d, Unwind)), clock);
    case PlannerSettled(k, reply, retained) =>
      BodyReached(c, o, s, k, reply, retained, false, AuthorizeThrows, clock);
      var p := Planning(c, s, k, reply, retained, clock);
      if InPhase(p, k, Finishing) { LeaveReached(c, o, p, k, clock); }
    case MaterializerSettled(k, ok, verdict) =>
      BodyReached(c, o, s, k, PlannerFailed(false), 0, ok, verdict, clock);
      var p := Granting(c, s, k, ok, verdict, clock);
      if InPhase(p, k, Finishing) { LeaveReached(c, o, p, k, clock); }
    case OtherRelease(k) =>
      ReachedNext(c, o, s, Outside(ReleaseGate(k)));
      WakeReached(c, o, Next(c, s, Outside(ReleaseGate(k))), clock);
    case Other(e) => ReachedNext(c, o, s, e);
  }

  /** What holds after every run of the protocol holds between the blocks. */
  lemma {:induction false} BlocksAreRuns(c: Config, s: State, calls: seq<Call>, clock: Clock)
    requires Initial(s)
    ensures Reached(c, s, Blocks(c, s, calls, clock)) && Inv(Blocks(c, s, calls, clock))
  {
    if calls == [] {
      assert Run(c, s, []) == s;
    } else {
      var n := |calls| - 1;
      BlocksAreRuns(c, s, calls[..n], clock);
      var before := Blocks(c, s, calls[..n], clock);
      if Callable(before, calls[n]) {
        DoReached(c, s, before, calls[n], clock);
      }
    }
    var es :| Run(c, s, es) == Blocks(c, s, calls, clock);
    AlwaysInv(c, s, es);
  }

  // ----- what makes a first fence lapse -----

  /** The first fence of the intake a turn admits fails exactly if, at the second reading, the
      policy its admission found has expired or some table cannot be read. */
  lemma FirstFenceExact(c: Config, s: State, d: nat, k: nat, clock: Clock)
    requires AtTop(s, d) && d in TurnOf(c, s, d, clock).queue.drains
    requires TurnOf(c, s, d, clock).queue.drains[d].pc == Awaiting(k)
    ensures s.queue.pending != [] && CurrentPolicy(Read(c, s, clock).repo, s.queue.pending[0]).Some?
    ensures var policy := CurrentPolicy(Read(c, s, clock).repo, s.queue.pending[0]).value;
            InPhase(Entered(c, TurnOf(c, s, d, clock), k, clock), k, Finishing) <==>
            || clock(s.steps + 2).unreadable != {}
            || (policy.expiry.At? && clock(s.steps).now < policy.expiry.ms <= clock(s.steps + 2).now)
    ensures clock(s.steps).unreadable == {}
  {
    TurnOutcome(c, s, d, clock);
    ReadIs(c, s, clock);
    var t := TurnOf(c, s, d, clock);
    var repo, p := Read(c, s, clock).repo, s.queue.pending[0];
    EnteredIs(c, t, k, clock);
    AllReadable(repo, p);
    FenceRereads(repo, p, clock(s.steps).now, {});
    FenceRereads(repo, p, clock(s.steps + 2).now, clock(s.steps + 2).unreadable);
    assert t.steps == s.steps + 2 && t.repo == repo;
    assert repo.(now := clock(s.steps).now, unreadable := {}) == repo;
  }

  ghost predicate Still(clock: Clock, from: nat, to: nat) {
    forall n :: from <= n < to ==> clock(n) == clock(from)
  }

  lemma {:induction false} StillPrefix(c: Config, s: State, d: nat, clock: Clock)
    requires AtTop(s, d) && Still(clock, s.steps, Prefix(c, s, d, clock).steps)
    ensures Lapses(c, s, d, clock) == 0
    decreases |s.queue.pending|
  {
    TurnOutcome(c, s, d, clock);
    ReadIs(c, s, clock);
    var t := TurnOf(c, s, d, clock);
    StepCounts(c, Read(c, s, clock), OfDrain(d, Turn));
    match t.queue.drains[d].pc
    case Looping =>
      StepsGrow(c, t, d, clock);
      StillPrefix(c, t, d, clock);
    case Unwinding =>
    case Awaiting(k) =>
      FirstFenceExact(c, s, d, k, clock);
      EnteredIs(c, t, k, clock);
      var b := Entered(c, t, k, clock);
      if b.intakes[k].phase.Finishing? {
        LeaveGrowsSteps(c, b, k, clock);
      }
      assert s.steps + 2 < Prefix(c, s, d, clock).steps;
  }

  lemma StepsGrow(c: Config, s: State, d: nat, clock: Clock)
    requires AtTop(s, d)
    ensures Prefix(c, s, d, clock).steps > s.steps
  {
    assert Run(c, s, []) == s;
    PrefixReached(c, s, s, d, clock);
  }

  lemma LeaveGrowsSteps(c: Config, s: State, k: nat, clock: Clock)
    requires InPhase(s, k, Finishing)
    ensures var f := LeaseGiven(c, s, k);
            Leave(c, s, k, clock).steps > WakeAfter(c, f, clock).steps >= f.steps > s.steps
  {
    var f := LeaseGiven(c, s, k);
    assert Run(c, f, []) == f;
    WakeReached(c, f, f, clock);
    StepCounts(c, s, OfIntake(k, FreeLease));
    StepCounts(c, WakeAfter(c, f, clock), OfIntake(k, Remove));
  }

  lemma StillLaunch(c: Config, s: State, t: State, clock: Clock, from: nat, to: nat)
    requires from <= t.steps && Launch(c, s, t, clock).steps <= to && Still(clock, from, to)
    ensures LaunchLapses(c, s, t, clock) == 0
  {
    var e := s.queue.nextDrain;
    if t.queue.nextDrain > e && AtTop(t, e) {
      StepCounts(c, Prefix(c, t, e, clock), OfDrain(e, Publish));
      StepsGrow(c, t, e, clock);
      StillPrefix(c, t, e, clock);
    }
  }

  lemma StillWake(c: Config, s: State, clock: Clock, from: nat, to: nat)
    requires from <= s.steps && WakeAfter(c, s, clock).steps <= to && Still(clock, from, to)
    ensures WakeLapses(c, s, clock) == 0
  {
    if s.owed > 0 {
      StepCounts(c, s, Wake);
      StillLaunch(c, s, Next(c, s, Wake), clock, from, to);
    }
  }

  lemma StillLeave(c: Config, s: State, k: nat, clock: Clock, from: nat, to: nat)
    requires from <= s.steps && LeaveIfOver(c, s, k, clock).steps <= to && Still(clock, from, to)
    ensures LeaveLapses(c, s, k, clock) == 0
  {
    if InPhase(s, k, Finishing) {
      LeaveGrowsSteps(c, s, k, clock);
      StillWake(c, LeaseGiven(c, s, k), clock, from, to);
    }
  }

  /** No first fence lapses in a block during which the clock and the readable tables stay. */
  lemma StillBlockNeverLapses(c: Config, s: State, call: Call, clock: Clock)
    requires Callable(s, call) && Still(clock, s.steps, Do(c, s, call, clock).steps)
    ensures LapsesIn(c, s, call, clock) == 0
  {
    var to := Do(c, s, call, clock).steps;
    assert Run(c, s, []) == s;
    match call
    case Completed(run) =>
      StepCounts(c, s, Notify(run));
      StillLaunch(c, s, Next(c, s, Notify(run)), clock, s.steps, to);
    case Resumed(d) =>
      var t := Next(c, s, OfDrain(d, Resume));
      StepCounts(c, s, OfDrain(d, Resume));
      StepsGrow(c, t, d, clock);
      StillPrefix(c, t, d, clock);
    case Unwound(d) =>
      StepCounts(c, s, OfDrain(d, Unwind));
      StillLaunch(c, s, Next(c, s, OfDrain(d, Unwind)), clock, s.steps, to);
    case PlannerSettled(k, reply, retained) =>
      BodyReached(c, s, s, k, reply, retained, false, AuthorizeThrows, clock);
      StillLeave(c, Planning(c, s, k, reply, retained, clock), k, clock, s.steps, to);
    case MaterializerSettled(k, ok, verdict) =>
      BodyReached(c, s, s, k, PlannerFailed(false), 0, ok, verdict, clock);
      StillLeave(c, Granting(c, s, k, ok, verdict, clock), k, clock, s.steps, to);
    case OtherRelease(k) =>
      StepCounts(c, s, Outside(ReleaseGate(k)));
      StillWake(c, Next(c, s, Outside(ReleaseGate(k))), clock, s.steps, to);
    case Other(_) =>
  }

  /** So if they stay as they are within each block, there is only ever one drain. */
  lemma SingleDrainWhenStill(c: Config, s: State, calls: seq<Call>, clock: Clock)
    requires Initial(s)
    requires forall i :: 0 <= i < |calls| ==>
               Still(clock, Blocks(c, s, calls[..i], clock).steps, Blocks(c, s, calls[..i + 1], clock).steps)
    ensures OnRecord(Blocks(c, s, calls, clock).queue) && |Blocks(c, s, calls, clock).queue.drains| <= 1
  {
    forall i | 0 <= i < |calls| ensures !LapsesAt(c, s, calls, clock, i) {
      var before := Blocks(c, s, calls[..i], clock);
      assert calls[..i + 1][..i] == calls[..i];
      if Callable(before, calls[i]) {
        StillBlockNeverLapses(c, before, calls[i], clock);
      }
    }
    OnRecordUntilLapse(c, s, calls, clock);
    OnRecordSize(Blocks(c, s, calls, clock).queue);
  }

  // ----- a run with two drains -----

  const POLICY_A := Policy("A", 1, true, At(10), {})
  const POLICY_B := Policy("B", 1, true, Never, {})

  /** Two finished runs, in sessions of their own, each with an active policy; one expires at 10. */
  const REPO := Repo(
    false,
    map["a" := "sa", "b" := "sb"],
    map["a" := RunRow(true, "sa", "ta"), "b" := RunRow(true, "sb", "tb")],
    map["ta" := "a", "tb" := "b"],
    map["sa" := Intent("a", "ta", []), "sb" := Intent("b", "tb", [])],
    map["A" := POLICY_A, "B" := POLICY_B],
    map["sa" := ["A"], "sb" := ["B"]],
    Control(1, false), {}, 0)

  const CONFIG := Config(true, true, {}, true, true)

  /** A new service on a gate another owner holds. */
  const FIRST := State(
    REPO, Gate(Some(Reservation("other", 0)), 1, false, [OWN_WAKE]), 0,
    Queue([], {}, None, map[], 0, false, map[], []), map[], NO_EFFECTS, false, false, 0)

  function PendingOf(run: RunId, session: SessionId, turn: TurnId, policy: PolicyId, born: nat): Pending {
    Pending(run, session, [], turn, run, policy, 1, 1, born)
  }

  function FirstPending(): Pending {
    PendingOf("a", "sa", "ta", "A", 0)
  }

  function SecondPending(): Pending {
    PendingOf("b", "sb", "tb", "B", 5)
  }

  lemma CapturesAre(now: int)
    ensures Capture(REPO.(now := now), "a", 0) == Some(FirstPending())
    ensures Capture(REPO.(now := now), "b", 5) == Some(SecondPending())
    ensures CurrentPolicy(REPO.(now := now), FirstPending()) == if now < 10 then Some(POLICY_A) else None
    ensures CurrentPolicy(REPO.(now := now), SecondPending()) == Some(POLICY_B)
  {
    assert FirstActive(REPO.policies, ["A"]) == Some(POLICY_A);
    assert FirstActive(REPO.policies, ["B"]) == Some(POLICY_B);
  }

  /** The notification was accepted and started a drain, which has done nothing yet. */
  ghost predicate Starts(c: Config, s: State, t: State, run: RunId, p: Pending) {
    && c.enabled && c.hasPlanner && !s.stopped && run !in s.queue.seen
    && Capture(s.repo, run, s.steps) == Some(p)
    && s.queue.drains == map[] && s.queue.drainTask.None? && !s.queue.wakeRequested && !s.gate.closed
    && t == s.(steps := s.steps + 1,
               queue := Accept(s.queue, p).(drains := map[s.queue.nextDrain := Drain(Looping, false)],
                                            nextDrain := s.queue.nextDrain + 1))
  }

  lemma NotifyStarts(c: Config, s: State, t: State, run: RunId, p: Pending)
    requires Starts(c, s, t, run, p)
    ensures Next(c, s, Notify(run)) == t
  {
  }

  /** A completion while another owner holds the gate: its drain starts, finds the slot taken
      and ends, and the intent stays queued. */
  lemma Deferred(c: Config, s: State, t: State, run: RunId, p: Pending, clock: Clock)
    requires Starts(c, s, t, run, p) && s.gate.holder.Some?
    requires CurrentPolicy(ReadAt(t.repo, clock(t.steps)), t.queue.pending[0]).Some?
    ensures var u := Do(c, s, Completed(run), clock);
            && Callable(u, Unwound(s.queue.nextDrain))
            && Do(c, u, Unwound(s.queue.nextDrain), clock) ==
               t.(repo := ReadAt(t.repo, clock(t.steps)), steps := t.steps + 4, queue := t.queue.(drains := map[]))
  {
    var d := s.queue.nextDrain;
    NotifyStarts(c, s, t, run, p);
    DeferredTurn(c, t, d, clock);
    var v := Prefix(c, t, d, clock);
    DeferredPublish(c, v, d);
    DeferredUnwind(c, Next(c, v, OfDrain(d, Publish)), d, t.queue.(drains := map[]));
  }

  lemma DeferredPublish(c: Config, v: State, d: nat)
    requires v.queue.drains == map[d := Drain(Unwinding, false)]
    ensures Next(c, v, OfDrain(d, Publish)) ==
            v.(steps := v.steps + 1,
               queue := v.queue.(drains := map[d := Drain(Unwinding, true)], drainTask := Some(d)))
  {
  }

  lemma DeferredTurn(c: Config, t: State, d: nat, clock: Clock)
    requires c.enabled && !t.stopped && t.gate.holder.Some? && !t.gate.closed && t.queue.pending != []
    requires t.queue.drains == map[d := Drain(Looping, false)]
    requires CurrentPolicy(ReadAt(t.repo, clock(t.steps)), t.queue.pending[0]).Some?
    ensures Prefix(c, t, d, clock) ==
            t.(repo := ReadAt(t.repo, clock(t.steps)), steps := t.steps + 2,
               queue := t.queue.(drains := map[d := Drain(Unwinding, false)]))
  {
    ReadIs(c, t, clock);
    var r := Read(c, t, clock);
    assert !Admits(c, r);
    assert TurnAway(c, r, d) == t.queue.(drains := map[d := Drain(Unwinding, false)]);
    assert Next(c, r, OfDrain(d, Turn)) == Tick(r.(queue := TurnAway(c, r, d)));
  }

  lemma DeferredUnwind(c: Config, u: State, d: nat, q: Queue)
    requires u.queue == q.(drains := map[d := Drain(Unwinding, true)], drainTask := Some(d))
    requires q.drains == map[] && q.drainTask.None? && !q.wakeRequested && !u.gate.closed
    ensures Callable(u, Unwound(d)) && Next(c, u, OfDrain(d, Unwind)) == u.(queue := q, steps := u.steps + 1)
  {
    assert (map e | e in u.queue.drains && e != d :: u.queue.drains[e]) == map[];
    assert UnwindDrain(u.queue, d, u.stopped, u.gate.closed) == q;
  }

  lemma BlocksSnoc(c: Config, s: State, calls: seq<Call>, call: Call, clock: Clock)
    requires Callable(Blocks(c, s, calls, clock), call)
    ensures Blocks(c, s, calls + [call], clock) == Do(c, Blocks(c, s, calls, clock), call, clock)
  {
    assert (calls + [call])[..|calls|] == calls;
  }

  /** Time passes between the admission of the first intent and its first fence. */
  function CrossesExpiry(): Clock {
    n => Reading(if n <= 12 then 0 else 10, {})
  }

  /** Both intents queued behind the other owner. */
  function BothQueued(): State {
    FIRST.(steps := 10,
           queue := Accept(Accept(FIRST.queue, FirstPending()).(nextDrain := 1), SecondPending()).(nextDrain := 2))
  }

  /** The first one queued. */
  function OneQueued(): State {
    FIRST.(steps := 5, queue := Accept(FIRST.queue, FirstPending()).(nextDrain := 1))
  }

  lemma FirstGetsQueued()
    ensures var u := Do(CONFIG, FIRST, Completed("a"), CrossesExpiry());
            Callable(u, Unwound(0)) && Do(CONFIG, u, Unwound(0), CrossesExpiry()) == OneQueued()
  {
    CapturesAre(0);
    assert REPO.(now := 0) == REPO;
    var t := FIRST.(steps := 1, queue := OneQueued().queue.(drains := map[0 := Drain(Looping, false)]));
    Deferred(CONFIG, FIRST, t, "a", FirstPending(), CrossesExpiry());
  }

  lemma SecondGetsQueued()
    ensures var u := Do(CONFIG, OneQueued(), Completed("b"), CrossesExpiry());
            Callable(u, Unwound(1)) && Do(CONFIG, u, Unwound(1), CrossesExpiry()) == BothQueued()
  {
    CapturesAre(0);
    assert REPO.(now := 0) == REPO;
    var t := OneQueued().(steps := 6, queue := BothQueued().queue.(drains := map[1 := Drain(Looping, false)]));
    Deferred(CONFIG, OneQueued(), t, "b", SecondPending(), CrossesExpiry());
  }

  lemma BothGetQueued() returns (calls: seq<Call>)
    ensures Blocks(CONFIG, FIRST, calls, CrossesExpiry()) == BothQueued()
  {
    FirstGetsQueued();
    calls := TwoMore([], Completed("a"), Unwound(0));
    SecondGetsQueued();
    calls := TwoMore(calls, Completed("b"), Unwound(1));
  }

  lemma TwoMore(calls: seq<Call>, call: Call, then_: Call) returns (more: seq<Call>)
    requires var s := Blocks(CONFIG, FIRST, calls, CrossesExpiry());
             Callable(s, call) && Callable(Do(CONFIG, s, call, CrossesExpiry()), then_)
    ensures Blocks(CONFIG, FIRST, more, CrossesExpiry()) ==
            Do(CONFIG, Do(CONFIG, Blocks(CONFIG, FIRST, calls, CrossesExpiry()), call, CrossesExpiry()),
               then_, CrossesExpiry())
  {
    BlocksSnoc(CONFIG, FIRST, calls, call, CrossesExpiry());
    BlocksSnoc(CONFIG, FIRST, calls + [call], then_, CrossesExpiry());
    more := calls + [call] + [then_];
  }

  /** The other owner's release starts a drain whose first fence lapses. */
  lemma ReleaseLapses()
    ensures Callable(BothQueued(), OtherRelease(0)) && Between(BothQueued())
    ensures LapsesIn(CONFIG, BothQueued(), OtherRelease(0), CrossesExpiry()) > 0
  {
    var s, clock := BothQueued(), CrossesExpiry();
    var f := s.(steps := 11, owed := 1, gate := s.gate.(holder := None));
    assert Next(CONFIG, s, Outside(ReleaseGate(0))) == f;
    var w := f.(steps := 12, owed := 0, queue := s.queue.(drains := map[2 := Drain(Looping, false)], nextDrain := 3));
    assert Next(CONFIG, f, Wake) == w;
    DrainLapses(w, clock);
  }

  lemma DrainLapses(w: State, clock: Clock)
    requires w.repo == REPO && w.steps == 12 && clock == CrossesExpiry() && w.gate == Gate(None, 1, false, [OWN_WAKE])
    requires !w.stopped && w.queue.pending == [FirstPending(), SecondPending()] && w.queue.drainTask.None?
    requires AtTop(w, 2)
    ensures Lapses(CONFIG, w, 2, clock) > 0
  {
    CapturesAre(0);
    assert REPO.(now := 0) == REPO;
    ReadIs(CONFIG, w, clock);
    var r := Read(CONFIG, w, clock);
    assert r.repo == REPO && Admits(CONFIG, r);
    AdmittedTurn(CONFIG, w, 2, r);
    FirstFenceExact(CONFIG, w, 2, 1, clock);
    TurnOutcome(CONFIG, w, 2, clock);
    EnteredIs(CONFIG, TurnOf(CONFIG, w, 2, clock), 1, clock);
    assert Lapsed(Entered(CONFIG, TurnOf(CONFIG, w, 2, clock), 1, clock), 1);
  }

  /** A new service can come to run two drains, both once on record, though everything between
      two awaits runs alone and the clock never goes back. */
  lemma TwoDrainsCanRun() returns (calls: seq<Call>)
    ensures Initial(FIRST) && forall m: nat, n: nat :: m <= n ==> CrossesExpiry()(m).now <= CrossesExpiry()(n).now
    ensures var q := Blocks(CONFIG, FIRST, calls, CrossesExpiry()).queue;
            |q.drains| > 1 && q.drainTask.Some? && AllRecorded(q)
  {
    calls := BothGetQueued();
    ReleaseLapses();
    CallCounts(CONFIG, BothQueued(), OtherRelease(0), CrossesExpiry());
    BlocksSnoc(CONFIG, FIRST, calls, OtherRelease(0), CrossesExpiry());
    calls := calls + [OtherRelease(0)];
  }

  /** Nor is a lost wake out of reach: from the state with both queued, a gate shut down, released
      by its other owner and reopened leaves them queued with nobody to look at them. */
  lemma LostWakeCanHappen() returns (es: seq<Step>)
    ensures Initial(FIRST) && Lost(Run(CONFIG, FIRST, es)) && !Run(CONFIG, FIRST, es).gate.closed
  {
    var calls := BothGetQueued();
    BlocksAreRuns(CONFIG, FIRST, calls, CrossesExpiry());
    var before :| Run(CONFIG, FIRST, before) == BothQueued();
    ShutdownLosesWake(CONFIG, FIRST, before, 0);
    es := before + [Outside(ShutdownGate)] + [Outside(ReleaseGate(0))] + [Outside(ReopenGate)];
  }
}
