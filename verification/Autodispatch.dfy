/**
 The auto-dispatch intake protocol (apps/server/src/autodispatch_service.ts) over the
 shared gate (apps/server/src/background_resource.ts), as a state machine.

 A step is one synchronous block of the service between two points where other code
 can run: an `await`, or a call that leaves the service.  `release` is such a call:
 it empties the slot and then calls the wakes, so a step frees the lease and leaves a
 call of the service's own wake `owed`; what the other wakes do is covered by the
 foreign steps.  Between two steps any enabled step may run.  These are more
 schedules than a single-threaded run has, so what holds here holds there; in
 particular the clock may move between any two blocks.
 */
module Autodispatch {
  import opened Options
  import opened Kernel
  import opened BackgroundGate
  import Retention

  /** The wake this service registers with the gate. */
  const OWN_WAKE: WakeId := 0

  datatype Config = Config(enabled: bool, hasPlanner: bool, operations: set<Operation>,
                           hasDependencies: bool, hasMaterializer: bool)

  /** Where one admitted intake stands in `runIntake`. */
  datatype Phase =
    | Starting                                   // admitted, first fence not read yet
    | Proposing                                  // awaiting the planner
    | Planned(plan: nat, policy: Policy)         // plan frozen, next fence not read yet
    | Preparing(plan: nat, policy: Policy)       // awaiting the materializer
    | Ready(plan: nat)                           // bytes prepared, last fence not read yet
    | Finishing                                  // the body is over, `finally` not run yet
    | LeaseFreed                                 // lease given back, still in `active`
    | Done                                       // out of `active`, the promise is settled

  datatype Intake = Intake(p: Pending, phase: Phase, aborted: bool)

  /** Where one drain stands: at the top of its loop, awaiting an intake, or past
      `drainPending` with its own `finally` to run. */
  datatype DrainPc = Looping | Awaiting(token: nat) | Unwinding

  /** `published`: the call that started it has returned and set `drainTask`. */
  datatype Drain = Drain(pc: DrainPc, published: bool)

  /** The queue and its drains.  `accepted` records the step of each accepted
      notification and `dropped` the accepted ones whose intent left the queue
      unadmitted; the service reads neither. */
  datatype Queue = Queue(
    pending: seq<Pending>,
    seen: set<RunId>,
    drainTask: Option<nat>,
    drains: map<nat, Drain>,
    nextDrain: nat,
    wakeRequested: bool,
    accepted: map<nat, RunId>,
    dropped: seq<nat>)

  /** What the intakes did, by the token of their lease. */
  datatype Effects = Effects(
    planned: multiset<nat>,        // createAutodispatchPlan calls
    prepared: multiset<nat>,       // prepared materializations
    granted: multiset<nat>,        // authorizeAutodispatch calls
    kept: multiset<nat>,           // materializations kept by a grant or a replay
    discarded: multiset<nat>,      // materializations discarded
    freed: multiset<nat>)          // leases given back

  datatype State = State(
    repo: Repo,
    gate: Gate,
    owed: nat,
    queue: Queue,
    intakes: map<nat, Intake>,
    effects: Effects,
    stopped: bool,
    settled: bool,
    steps: nat)

  datatype PlanReply = PlannerFailed(deadline: bool) | Proposal(operation: Operation, created: Created)
  datatype Created = CreateThrows | Plan(id: nat, frozen: bool)
  datatype ExecutionStatus = Authorized | Reserved | Other
  datatype Verdict = AuthorizeThrows | Execution(status: ExecutionStatus, replayed: bool)

  datatype DrainStep = Turn | Publish | Resume | Unwind

  datatype IntakeStep =
    | Begin
    | Propose(reply: PlanReply)
    | CheckRoom(retained: nat)
    | PrepareSettled(ok: bool)
    | Authorize(verdict: Verdict)
    | FreeLease
    | Remove

  /** What everyone else does: the repository and the clock, the other services
      sharing the gate, and whoever closes it. */
  datatype OutsideStep =
    | World(repo: Repo)
    | AcquireGate(owner: Owner)
    | ReleaseGate(token: nat)
    | CloseGate
    | ReopenGate
    | ShutdownGate
    | SubscribeGate(wake: WakeId)
    | UnsubscribeGate(wake: WakeId)

  datatype Step =
    | Notify(run: RunId)
    | Wake
    | OfDrain(drain: nat, d: DrainStep)
    | OfIntake(token: nat, i: IntakeStep)
    | Foreground
    | Stop
    | StopSettled
    | Outside(o: OutsideStep)

  // ----- the fence -----

  /** `readCurrentIntake`: the active policy the intent may run under, or None. */
  function Fence(c: Config, s: State, aborted: bool, p: Pending): Option<Policy> {
    if s.stopped || aborted || !c.enabled || s.gate.closed then None
    else CurrentPolicy(s.repo, p)
  }

  // ----- the queue -----

  function Births(pending: seq<Pending>): seq<nat> {
    seq(|pending|, i requires 0 <= i < |pending| => pending[i].born)
  }

  /** `pendingIntakes.clear()`. */
  function DropAll(q: Queue): Queue {
    q.(pending := [], dropped := q.dropped + Births(q.pending))
  }

  function RequestDrain(q: Queue, stopped: bool, closed: bool): Queue {
    if stopped then q
    else if closed then DropAll(q).(wakeRequested := false)
    else if q.drainTask.Some? then q.(wakeRequested := true)
    else if q.pending == [] then q
    else q.(drains := q.drains[q.nextDrain := Drain(Looping, false)], nextDrain := q.nextDrain + 1)
  }

  /** A release loop calls the wake this service registered. */
  function WakeEffect(s: State): State
    requires s.owed > 0
  {
    s.(owed := s.owed - 1, queue := RequestDrain(s.queue, s.stopped, s.gate.closed))
  }

  function OnRunCompleted(c: Config, s: State, run: RunId): Queue {
    var q := s.queue;
    if s.stopped || !c.enabled || !c.hasPlanner || run in q.seen then q
    else
      match Capture(s.repo, run, s.steps)
      case None => q
      case Some(p) => RequestDrain(Accept(q, p), s.stopped, s.gate.closed)
  }

  function Accept(q: Queue, p: Pending): Queue {
    q.(pending := q.pending + [p], seen := q.seen + {p.runId}, accepted := q.accepted[p.born := p.runId])
  }

  function SetDrain(q: Queue, d: nat, pc: DrainPc): Queue
    requires d in q.drains
  {
    q.(drains := q.drains[d := q.drains[d].(pc := pc)])
  }

  /** `pendingIntakes.delete` of the first entry, dropped by the fence. */
  function DropFirst(q: Queue): Queue
    requires q.pending != []
  {
    q.(pending := q.pending[1..], dropped := q.dropped + [q.pending[0].born])
  }

  /** The `finally` of a drain. */
  function UnwindDrain(q: Queue, d: nat, stopped: bool, closed: bool): Queue {
    var r := q.(drains := map e | e in q.drains && e != d :: q.drains[e], drainTask := None);
    if closed then DropAll(r).(wakeRequested := false)
    else if r.wakeRequested then
      var u := r.(wakeRequested := false);
      if !stopped && u.pending != [] then RequestDrain(u, stopped, closed) else u
    else r
  }

  /** The first pending intent passes its fence and the slot is free. */
  predicate Admits(c: Config, s: State) {
    && !s.stopped && s.queue.pending != [] && !s.gate.closed
    && Fence(c, s, false, s.queue.pending[0]).Some?
    && CanAcquire(s.gate)
  }

  /** One turn of the `while` of `drainPending` that admits nothing. */
  function TurnAway(c: Config, s: State, d: nat): Queue
    requires d in s.queue.drains
  {
    var q := s.queue;
    if s.stopped || q.pending == [] then SetDrain(q, d, Unwinding)
    else if s.gate.closed then SetDrain(DropAll(q), d, Unwinding)
    else if Fence(c, s, false, q.pending[0]).None? then DropFirst(q)
    else SetDrain(q, d, Unwinding)
  }

  /** One turn that admits the first pending intent. */
  function Admit(s: State, d: nat): State
    requires d in s.queue.drains && s.queue.pending != [] && CanAcquire(s.gate)
  {
    var token := s.gate.nextToken;
    s.(gate := Acquired(s.gate, AUTODISPATCH),
       queue := SetDrain(s.queue, d, Awaiting(token)).(pending := s.queue.pending[1..]),
       intakes := s.intakes[token := Intake(s.queue.pending[0], Starting, false)])
  }

  predicate Done(s: State, token: nat) {
    token in s.intakes && s.intakes[token].phase.Done?
  }

  predicate DrainEnabled(s: State, d: nat, e: DrainStep) {
    && d in s.queue.drains
    && var drain := s.queue.drains[d];
       match e
       case Turn => drain.pc.Looping?
       case Publish => !drain.pc.Looping? && !drain.published
       case Resume => drain.published && drain.pc.Awaiting? && Done(s, drain.pc.token)
       case Unwind => drain.published && drain.pc.Unwinding?
  }

  function DrainEffect(c: Config, s: State, d: nat, e: DrainStep): State
    requires DrainEnabled(s, d, e)
  {
    match e
    case Turn => if Admits(c, s) then Admit(s, d) else s.(queue := TurnAway(c, s, d))
    case Publish =>
      s.(queue := s.queue.(drains := s.queue.drains[d := s.queue.drains[d].(published := true)], drainTask := Some(d)))
    case Resume => s.(queue := SetDrain(s.queue, d, Looping))
    case Unwind => s.(queue := UnwindDrain(s.queue, d, s.stopped, s.gate.closed))
  }

  // ----- one intake -----

  datatype Progress = Progress(intake: Intake, effects: Effects)

  predicate IntakeEnabled(i: Intake, e: IntakeStep) {
    match e
    case Begin => i.phase.Starting?
    case Propose(_) => i.phase.Proposing?
    case CheckRoom(_) => i.phase.Planned?
    case PrepareSettled(_) => i.phase.Preparing?
    case Authorize(_) => i.phase.Ready?
    case FreeLease => i.phase.Finishing?
    case Remove => i.phase.LeaseFreed?
  }

  function OnProposal(c: Config, fence: Option<Policy>, token: nat, i: Intake, f: Effects, reply: PlanReply): Progress {
    match reply
    case PlannerFailed(deadline) => Progress(i.(phase := Finishing, aborted := i.aborted || deadline), f)
    case Proposal(operation, created) =>
      if fence.None? || operation !in c.operations || operation !in fence.value.operations then
        Progress(i.(phase := Finishing), f)
      else
        var g := f.(planned := f.planned + multiset{token});
        if created.CreateThrows? || !created.frozen || !c.hasDependencies || !c.hasMaterializer then
          Progress(i.(phase := Finishing), g)
        else Progress(i.(phase := Planned(created.id, fence.value)), g)
  }

  function OnAuthorize(fence: Option<Policy>, token: nat, i: Intake, f: Effects, verdict: Verdict): Progress {
    var g := if fence.None? then f else f.(granted := f.granted + multiset{token});
    Progress(i.(phase := Finishing),
             if fence.Some? && verdict.Execution? && (verdict.status != Other || verdict.replayed)
             then g.(kept := g.kept + multiset{token})
             else g.(discarded := g.discarded + multiset{token}))
  }

  /** `fence` is what `readCurrentIntake` returns in the present state. */
  function Advance(c: Config, fence: Option<Policy>, token: nat, i: Intake, f: Effects, e: IntakeStep): Progress
    requires IntakeEnabled(i, e)
  {
    match e
    case Begin => Progress(i.(phase := if fence.None? then Finishing else Proposing), f)
    case Propose(reply) => OnProposal(c, fence, token, i, f, reply)
    case CheckRoom(retained) =>
      if fence.None? || retained >= Retention.MAX_RETAINED then Progress(i.(phase := Finishing), f)
      else Progress(i.(phase := Preparing(i.phase.plan, i.phase.policy)), f)
    case PrepareSettled(ok) =>
      if !ok then Progress(i.(phase := Finishing), f)
      else Progress(i.(phase := Ready(i.phase.plan)), f.(prepared := f.prepared + multiset{token}))
    case Authorize(verdict) => OnAuthorize(fence, token, i, f, verdict)
    case FreeLease => Progress(i.(phase := LeaseFreed), f.(freed := f.freed + multiset{token}))
    case Remove => Progress(i.(phase := Phase.Done), f)
  }

  /** Empty the slot; the wake loop that follows owes this service one call if its
      wake is registered. */
  function FreeSlot(s: State, token: nat): State {
    if !Holds(s.gate, token) then s
    else s.(gate := Freed(s.gate, token), owed := s.owed + if OWN_WAKE in s.gate.wakes then 1 else 0)
  }

  function IntakeEffect(c: Config, s: State, token: nat, e: IntakeStep): State
    requires token in s.intakes && IntakeEnabled(s.intakes[token], e)
  {
    var i := s.intakes[token];
    var next := Advance(c, Fence(c, s, i.aborted, i.p), token, i, s.effects, e);
    var t := if e.FreeLease? then FreeSlot(s, token) else s;
    t.(intakes := s.intakes[token := next.intake], effects := next.effects)
  }

  // ----- foreground, stop -----

  /** Still in the `active` set. */
  predicate Active(i: Intake) {
    !i.phase.Done?
  }

  function AbortActive(intakes: map<nat, Intake>): map<nat, Intake> {
    map t | t in intakes :: if Active(intakes[t]) then intakes[t].(aborted := true) else intakes[t]
  }

  function NotifyForeground(s: State): State {
    s.(queue := DropAll(s.queue).(wakeRequested := false), intakes := AbortActive(s.intakes))
  }

  function StopService(s: State): State {
    if s.stopped then s
    else NotifyForeground(s).(stopped := true, gate := Unsubscribed(s.gate, OWN_WAKE))
  }

  /** The stop loop may return: nothing active and no current drain. */
  predicate Quiet(s: State) {
    s.stopped && s.queue.drainTask.None? && forall t :: t in s.intakes ==> !Active(s.intakes[t])
  }

  // ----- everyone else -----

  ghost predicate OutsideEnabled(s: State, e: OutsideStep) {
    match e
    case World(repo) => Evolves(s.repo, repo)
    case AcquireGate(_) => CanAcquire(s.gate)
    case ReleaseGate(t) => t !in s.intakes
    case SubscribeGate(w) => w != OWN_WAKE
    case UnsubscribeGate(w) => w != OWN_WAKE
    case _ => true
  }

  ghost function OutsideEffect(s: State, e: OutsideStep): State
    requires OutsideEnabled(s, e)
  {
    match e
    case World(repo) => s.(repo := repo)
    case AcquireGate(owner) => s.(gate := Acquired(s.gate, owner))
    case ReleaseGate(t) => FreeSlot(s, t)
    case CloseGate => s.(gate := s.gate.(closed := true))
    case ReopenGate => s.(gate := s.gate.(closed := false))
    case ShutdownGate => s.(gate := ShutDown(s.gate))
    case SubscribeGate(w) => s.(gate := Subscribed(s.gate, w))
    case UnsubscribeGate(w) => s.(gate := Unsubscribed(s.gate, w))
  }

  // ----- the machine -----

  ghost predicate Enabled(s: State, e: Step) {
    match e
    case Wake => s.owed > 0
    case OfDrain(d, e) => DrainEnabled(s, d, e)
    case OfIntake(t, e) => t in s.intakes && IntakeEnabled(s.intakes[t], e)
    case StopSettled => Quiet(s)
    case Outside(e) => OutsideEnabled(s, e)
    case _ => true
  }

  ghost function Effect(c: Config, s: State, e: Step): State
    requires Enabled(s, e)
  {
    match e
    case Notify(run) => s.(queue := OnRunCompleted(c, s, run))
    case Wake => WakeEffect(s)
    case OfDrain(d, e) => DrainEffect(c, s, d, e)
    case OfIntake(t, e) => IntakeEffect(c, s, t, e)
    case Foreground => NotifyForeground(s)
    case Stop => StopService(s)
    case StopSettled => s.(settled := true)
    case Outside(e) => OutsideEffect(s, e)
  }

  function Tick(s: State): State {
    s.(steps := s.steps + 1)
  }

  /** A step that is not enabled passes time only. */
  ghost function Next(c: Config, s: State, e: Step): State {
    Tick(if Enabled(s, e) then Effect(c, s, e) else s)
  }

  const NO_EFFECTS := Effects(multiset{}, multiset{}, multiset{}, multiset{}, multiset{}, multiset{})

  /** A service just created over a gate that other services may already use. */
  ghost predicate Initial(s: State) {
    && s.queue == Queue([], {}, None, map[], 0, false, map[], [])
    && s.intakes == map[] && s.effects == NO_EFFECTS
    && !s.stopped && !s.settled && s.owed == 0 && s.steps == 0
    && OWN_WAKE in s.gate.wakes
    && (s.gate.holder.Some? ==> s.gate.holder.value.token < s.gate.nextToken)
    && Keyed(s.repo)
  }

  ghost function Run(c: Config, s: State, es: seq<Step>): State {
    if es == [] then s else Next(c, Run(c, s, es[..|es| - 1]), es[|es| - 1])
  }
}
