/**
 Startup, draining and teardown of the server (apps/server/src/bootstrap.ts) together with
 the request handlers teardown has to wait for (the controls of apps/server/src/app.ts).

 A state is what the closures hold between two awaits, a step is the code between two
 awaits, and handlers begin and end between any two of them. Services, the engine and
 the connectors only appear as the awaits they cause.
 */
module Lifecycle {
  import opened Options

  datatype Store = Absent | Open | Closed

  datatype Mode = Graceful | ListenFailure | StartupFailure

  /** Where startup or teardown is waiting. */
  datatype Pc =
    | Booting
    | Serving
    | Stopping(mode: Mode)              // services, and the engine unless startup failed
    | Connectors(mode: Mode)
    | HookRuns(mode: Mode)
    | WaitingSends(waiting: set<nat>)
    | WaitingAdoptions(waiting: set<nat>)
    | ClosingListener(mode: Mode)
    | Done(mode: Mode)

  datatype Event = DrainFailed | EngineDrained | HookCalled | AgoraClosed | DbClosed | ListenerClosed

  /** What startup acquires and teardown gives back, and the record of giving it back. */
  datatype Resources = Resources(db: Store, agora: Store, hook: bool, engine: bool, listening: bool, log: seq<Event>)

  /** The controls: handlers admitted and still running. */
  datatype Controls = Controls(draining: bool, admitSends: bool, admitAdoptions: bool,
                               sends: set<nat>, adoptions: set<nat>, nextHandler: nat)

  /** `memo` tells whether `shutdownPromise` is set. */
  datatype State = State(pc: Pc, memo: bool, res: Resources, http: Controls)

  function Start(): State {
    State(Booting, false, Resources(Absent, Absent, false, false, false, []), Controls(false, true, true, {}, {}, 0))
  }

  datatype Step =
    // startup
    | OpenDb | OpenAgora | AdoptHook | StartEngine
    | Listens              // the listener is up and startup returns
    | ListenFails
    | FailsEarly           // startup throws before it listens
    | FailsLate            // startup throws after it listens, before it returns
    // requests
    | BeginSend | EndSend(handler: nat) | BeginAdoption | EndAdoption(handler: nat)
    // teardown
    | Shutdown
    | Stopped(drained: bool)
    | ConnectorsStopped
    | HookSettled
    | SendsSettled
    | AdoptionsSettled
    | ListenerDown

  // ----- the pieces steps are made of -----

  function Logged(r: Resources, e: Event): Resources {
    r.(log := r.log + [e])
  }

  function CloseAgora(r: Resources): Resources {
    if r.agora.Open? then Logged(r.(agora := Closed), AgoraClosed) else r
  }

  function CloseDb(r: Resources): Resources {
    if r.db.Open? then Logged(r.(db := Closed), DbClosed) else r
  }

  function CloseStores(r: Resources): Resources {
    CloseDb(CloseAgora(r))
  }

  /** The owned hook is consumed before it is invoked. */
  function CallHook(r: Resources): Resources {
    if r.hook then Logged(r.(hook := false), HookCalled) else r
  }

  function CloseListener(r: Resources): Resources {
    Logged(r.(listening := false), ListenerClosed)
  }

  function AdmitSend(c: Controls): Controls {
    // a draining server refuses; a handler that is not admitted runs untracked
    if c.draining || !c.admitSends then c
    else c.(sends := c.sends + {c.nextHandler}, nextHandler := c.nextHandler + 1)
  }

  function AdmitAdoption(c: Controls): Controls {
    if c.draining || !c.admitAdoptions then c
    else c.(adoptions := c.adoptions + {c.nextHandler}, nextHandler := c.nextHandler + 1)
  }

  /** Waiting for the sends, one snapshot after the other, then for the adoptions. */
  function AwaitSends(s: State): State {
    if s.http.sends != {} then s.(pc := WaitingSends(s.http.sends))
    else AwaitAdoptions(s.(http := s.http.(admitAdoptions := false)))
  }

  function AwaitAdoptions(s: State): State {
    if s.http.adoptions != {} then s.(pc := WaitingAdoptions(s.http.adoptions))
    else s.(pc := ClosingListener(Graceful), res := CloseStores(s.res))
  }

  predicate Enabled(s: State, e: Step) {
    match e
    case OpenDb => s.pc.Booting? && s.res.db.Absent?
    case OpenAgora => s.pc.Booting? && s.res.db.Open? && s.res.agora.Absent?
    case AdoptHook => s.pc.Booting? && s.res.db.Open?
    case StartEngine => s.pc.Booting? && s.res.db.Open?
    case Listens => s.pc.Booting? && s.res.engine
    case ListenFails => s.pc.Booting? && s.res.engine
    case FailsEarly => s.pc.Booting?
    case FailsLate => s.pc.Booting? && s.res.engine
    case BeginSend => (s.res.listening || s.http.draining) && s.res.agora != Absent
    case EndSend(h) => h in s.http.sends
    case BeginAdoption => s.res.listening || s.http.draining
    case EndAdoption(h) => h in s.http.adoptions
    case Shutdown => s.pc.Serving? || s.memo
    case Stopped(_) => s.pc.Stopping?
    case ConnectorsStopped => s.pc.Connectors?
    case HookSettled => s.pc.HookRuns?
    case SendsSettled => s.pc.WaitingSends? && s.pc.waiting !! s.http.sends
    case AdoptionsSettled => s.pc.WaitingAdoptions? && s.pc.waiting !! s.http.adoptions
    case ListenerDown => s.pc.ClosingListener?
  }

  function AfterStopping(s: State, drained: bool): State
    requires s.pc.Stopping?
  {
    var next := s.(pc := Connectors(s.pc.mode));
    if s.pc.mode.StartupFailure? then next
    else if drained then next.(res := Logged(s.res, EngineDrained))
    else if s.pc.mode.ListenFailure? then next.(res := Logged(s.res, DrainFailed))
    else s.(pc := Serving, memo := false, res := Logged(s.res, DrainFailed))
  }

  function AfterHook(s: State): State
    requires s.pc.HookRuns?
  {
    match s.pc.mode
    case Graceful => AwaitSends(s.(http := s.http.(admitSends := false)))
    case ListenFailure => s.(pc := ClosingListener(ListenFailure))
    case StartupFailure => s.(pc := Done(StartupFailure), res := CloseStores(s.res))
  }

  function AfterListener(s: State): State
    requires s.pc.ClosingListener?
  {
    var down := CloseListener(s.res);
    // after a failed listen the error goes on to the handler of startup failures
    if s.pc.mode.Graceful? then s.(pc := Done(Graceful), res := down)
    else s.(pc := Stopping(StartupFailure), res := CloseAgora(down))
  }

  function Apply(s: State, e: Step): State
    requires Enabled(s, e)
  {
    match e
    case OpenDb => s.(res := s.res.(db := Open))
    case OpenAgora => s.(res := s.res.(agora := Open))
    case AdoptHook => s.(res := s.res.(hook := true))
    case StartEngine => s.(res := s.res.(engine := true))
    case Listens => s.(pc := Serving, res := s.res.(listening := true))
    case ListenFails => s.(pc := Stopping(ListenFailure))
    case FailsEarly => s.(pc := Stopping(StartupFailure))
    case FailsLate => s.(pc := Stopping(StartupFailure), res := s.res.(listening := true))
    case BeginSend => s.(http := AdmitSend(s.http))
    case EndSend(h) => s.(http := s.http.(sends := s.http.sends - {h}))
    case BeginAdoption => s.(http := AdmitAdoption(s.http))
    case EndAdoption(h) => s.(http := s.http.(adoptions := s.http.adoptions - {h}))
    case Shutdown =>
      if s.memo then s else s.(memo := true, http := s.http.(draining := true), pc := Stopping(Graceful))
    case Stopped(drained) => AfterStopping(s, drained)
    case ConnectorsStopped => s.(pc := HookRuns(s.pc.mode), res := CallHook(s.res))
    case HookSettled => AfterHook(s)
    case SendsSettled => AwaitSends(s)
    case AdoptionsSettled => AwaitAdoptions(s)
    case ListenerDown => AfterListener(s)
  }

  /** A run: `states` are the states before and after each step. */
  ghost predicate Run(states: seq<State>, steps: seq<Step>) {
    && |states| == |steps| + 1
    && states[0] == Start()
    && forall i :: 0 <= i < |steps| ==> Enabled(states[i], steps[i]) && states[i + 1] == Apply(states[i], steps[i])
  }

  // ----- nothing is given back twice -----

  /** Giving a resource back is final: the hook call and the closing of each store. */
  predicate Final(e: Event) {
    e.HookCalled? || e.AgoraClosed? || e.DbClosed?
  }

  ghost predicate NoneTwice(log: seq<Event>) {
    forall i, j :: 0 <= i < j < |log| && Final(log[i]) ==> log[i] != log[j]
  }

  ghost predicate Once(r: Resources) {
    && NoneTwice(r.log)
    && (r.hook ==> HookCalled !in r.log)
    && (AgoraClosed in r.log <==> r.agora.Closed?)
    && (DbClosed in r.log <==> r.db.Closed?)
  }

  ghost predicate OnceInv(s: State) {
    Once(s.res) && (s.pc.Booting? ==> s.res.log == [])
  }

  lemma LoggedIn(r: Resources, last: Event)
    ensures forall e: Event :: e in Logged(r, last).log <==> e in r.log || e == last
  {
  }

  lemma LoggedOnce(r: Resources, e: Event)
    requires Once(r) && !Final(e)
    ensures Once(Logged(r, e))
  {
    LoggedIn(r, e);
  }

  lemma GivenBackOnce(r: Resources)
    requires Once(r)
    ensures Once(CallHook(r)) && Once(CloseAgora(r)) && Once(CloseDb(r))
  {
    LoggedIn(r.(hook := false), HookCalled);
    LoggedIn(r.(agora := Closed), AgoraClosed);
    LoggedIn(r.(db := Closed), DbClosed);
  }

  lemma ClosedOnce(r: Resources)
    requires Once(r)
    ensures Once(CloseStores(r)) && Once(CloseAgora(CloseListener(r)))
  {
    LoggedOnce(r.(listening := false), ListenerClosed);
    GivenBackOnce(r);
    GivenBackOnce(CloseAgora(r));
    GivenBackOnce(CloseListener(r));
  }

  lemma OnceWhileBooting(s: State, e: Step)
    requires OnceInv(s) && Enabled(s, e) && s.pc.Booting?
    ensures OnceInv(Apply(s, e))
  {
    assert Apply(s, e).res.log == [];
  }

  lemma OnceAfterStopping(s: State, drained: bool)
    requires s.pc.Stopping? && Once(s.res)
    ensures OnceInv(AfterStopping(s, drained))
  {
    LoggedOnce(s.res, DrainFailed);
    LoggedOnce(s.res, EngineDrained);
  }

  lemma OnceAfterWaiting(s: State)
    requires Once(s.res) && !s.pc.Booting?
    ensures OnceInv(AwaitAdoptions(s)) && OnceInv(AwaitSends(s))
    ensures s.pc.HookRuns? ==> OnceInv(AfterHook(s))
  {
    ClosedOnce(s.res);
  }

  lemma OnceAfterListener(s: State)
    requires s.pc.ClosingListener? && Once(s.res)
    ensures OnceInv(AfterListener(s))
  {
    ClosedOnce(s.res);
    LoggedOnce(s.res.(listening := false), ListenerClosed);
  }

  lemma OnceKept(s: State, e: Step)
    requires OnceInv(s) && Enabled(s, e)
    ensures OnceInv(Apply(s, e))
  {
    if s.pc.Booting? {
      OnceWhileBooting(s, e);
    } else {
      match e
      case Stopped(drained) => OnceAfterStopping(s, drained);
      case ConnectorsStopped => GivenBackOnce(s.res);
      case HookSettled => OnceAfterWaiting(s);
      case SendsSettled => OnceAfterWaiting(s);
      case AdoptionsSettled => OnceAfterWaiting(s);
      case ListenerDown => OnceAfterListener(s);
      case _ =>
    }
  }

  // ----- teardown waits for handlers -----

  predicate TearingDown(pc: Pc, mode: Mode) {
    (pc.Stopping? || pc.Connectors? || pc.HookRuns? || pc.ClosingListener? || pc.Done?) && pc.mode == mode
  }

  /** In the shutdown closure, or past it. */
  predicate ShuttingDown(pc: Pc) {
    TearingDown(pc, Graceful) || pc.WaitingSends? || pc.WaitingAdoptions?
  }

  predicate NotYetRefusing(pc: Pc) {
    pc.Booting? || pc.Serving? || pc.Stopping? || pc.Connectors? || pc.HookRuns?
  }

  ghost predicate AdmitInv(s: State) {
    && s.memo == ShuttingDown(s.pc)
    && (s.memo ==> s.http.draining)
    && (s.http.draining ==> s.memo || s.pc.Serving?)
    && (NotYetRefusing(s.pc) || !s.http.draining ==> s.http.admitSends && s.http.admitAdoptions)
    && (forall h :: h in s.http.sends ==> h < s.http.nextHandler)
    && (forall h :: h in s.http.adoptions ==> h < s.http.nextHandler)
  }

  ghost predicate WaitInv(s: State) {
    && (s.pc.WaitingSends? ==> s.http.sends <= s.pc.waiting)
    && (s.pc.WaitingAdoptions? ==> s.http.sends == {} && s.http.adoptions <= s.pc.waiting)
    && (s.memo && (s.pc.ClosingListener? || s.pc.Done?) ==> s.http.sends == {} && s.http.adoptions == {})
  }

  lemma AdmitKept(s: State, e: Step)
    requires AdmitInv(s) && WaitInv(s) && Enabled(s, e)
    ensures AdmitInv(Apply(s, e))
  {
  }

  lemma WaitKept(s: State, e: Step)
    requires AdmitInv(s) && WaitInv(s) && Enabled(s, e)
    ensures WaitInv(Apply(s, e))
  {
    SettledMeansNone(s, e);
  }

  /** The loop that waits for a snapshot of handlers goes round at most once. */
  lemma SettledMeansNone(s: State, e: Step)
    requires WaitInv(s) && Enabled(s, e)
    ensures e.SendsSettled? ==> s.http.sends == {}
    ensures e.AdoptionsSettled? ==> s.http.sends == {} && s.http.adoptions == {}
  {
    if e.SendsSettled? {
      DisjointSubset(s.http.sends, s.pc.waiting);
    } else if e.AdoptionsSettled? {
      DisjointSubset(s.http.adoptions, s.pc.waiting);
    }
  }

  lemma DisjointSubset<T>(a: set<T>, b: set<T>)
    requires a <= b && b !! a
    ensures a == {}
  {
    assert a == a * b;
  }

  predicate AnyClosed(r: Resources) {
    r.agora.Closed? || r.db.Closed?
  }

  predicate Idle(c: Controls) {
    c.sends == {} && c.adoptions == {}
  }

  /** Nothing is closed under a handler, and nothing is closed where one may begin. */
  ghost predicate QuietInv(s: State) {
    && (!s.memo && !s.pc.Serving? ==> !s.res.listening && Idle(s.http))
    && (s.pc.Booting? || s.pc.Serving? || (NotYetRefusing(s.pc) && s.memo) ==> !AnyClosed(s.res))
    && (AnyClosed(s.res) ==> Idle(s.http))
    && (AnyClosed(s.res) && s.memo ==> s.pc.ClosingListener? || s.pc.Done?)
  }

  lemma QuietKept(s: State, e: Step)
    requires AdmitInv(s) && WaitInv(s) && QuietInv(s) && Enabled(s, e) && !e.FailsLate?
    ensures QuietInv(Apply(s, e))
  {
  }

  // ----- the order of teardown -----

  function Rank(e: Event): nat {
    match e
    case DrainFailed => 0
    case EngineDrained => 1
    case HookCalled => 2
    case AgoraClosed => 3
    case DbClosed => 4
    case ListenerClosed => 5
  }

  function Bound(pc: Pc): nat {
    match pc
    case Booting => 0
    case Serving => 0
    case Stopping(_) => 0
    case Connectors(_) => 1
    case HookRuns(_) => 2
    case WaitingSends(_) => 2
    case WaitingAdoptions(_) => 2
    case ClosingListener(_) => 4
    case Done(_) => 5
  }

  /** Events come in teardown order, and only failed drains repeat. */
  ghost predicate Ordered(log: seq<Event>) {
    forall i, j :: 0 <= i < j < |log| ==> Rank(log[i]) < Rank(log[j]) || log[i] == log[j] == DrainFailed
  }

  ghost predicate OrderedBelow(log: seq<Event>, bound: nat) {
    Ordered(log) && forall i :: 0 <= i < |log| ==> Rank(log[i]) <= bound
  }

  ghost predicate OrderInv(s: State) {
    && (s.pc.Booting? ==> s.res.log == [])
    && (s.pc.Serving? || s.memo ==> OrderedBelow(s.res.log, Bound(s.pc)))
    && (s.memo && !s.pc.Stopping? ==> EngineDrained in s.res.log)
  }

  lemma OrderedAdds(r: Resources, bound: nat, last: Event)
    requires OrderedBelow(r.log, bound)
    requires Rank(last) > bound || (last == DrainFailed && bound == 0)
    ensures OrderedBelow(Logged(r, last).log, Rank(last))
  {
    forall i | 0 <= i < |r.log| && bound == 0 ensures r.log[i] == DrainFailed {
      assert Rank(r.log[i]) == 0;
    }
  }

  lemma OrderedStores(r: Resources)
    requires OrderedBelow(r.log, 2)
    ensures OrderedBelow(CloseStores(r).log, 4)
    ensures EngineDrained in r.log ==> EngineDrained in CloseStores(r).log
  {
    OrderedAdds(r.(agora := Closed), 2, AgoraClosed);
    if r.db.Open? {
      OrderedAdds(CloseAgora(r).(db := Closed), 3, DbClosed);
    }
  }

  lemma OrderOfStopping(s: State, drained: bool)
    requires s.pc == Stopping(Graceful) && s.memo && OrderInv(s)
    ensures OrderInv(AfterStopping(s, drained))
  {
    var e := if drained then EngineDrained else DrainFailed;
    OrderedAdds(s.res, 0, e);
    assert Logged(s.res, e).log[|s.res.log|] == e;
  }

  lemma OrderOfHook(s: State)
    requires s.pc == Connectors(Graceful) && s.memo && OrderInv(s)
    ensures OrderInv(s.(pc := HookRuns(Graceful), res := CallHook(s.res)))
  {
    if s.res.hook {
      OrderedAdds(s.res.(hook := false), 1, HookCalled);
    }
  }

  lemma OrderOfWaiting(s: State)
    requires s.memo && OrderInv(s) && (s.pc == HookRuns(Graceful) || s.pc.WaitingSends? || s.pc.WaitingAdoptions?)
    ensures OrderInv(AwaitAdoptions(s))
  {
    if s.http.adoptions == {} {
      OrderedStores(s.res);
    }
  }

  lemma OrderOfListener(s: State)
    requires s.pc == ClosingListener(Graceful) && s.memo && OrderInv(s)
    ensures OrderInv(AfterListener(s))
  {
    OrderedAdds(s.res.(listening := false), 4, ListenerClosed);
  }

  lemma OrderKept(s: State, e: Step)
    requires AdmitInv(s) && OrderInv(s) && Enabled(s, e)
    ensures OrderInv(Apply(s, e))
  {
    if s.memo {
      match e {
        case Stopped(drained) => OrderOfStopping(s, drained);
        case ConnectorsStopped => OrderOfHook(s);
        case HookSettled =>
          OrderOfWaiting(s.(http := s.http.(admitSends := false, admitAdoptions := false)));
        case SendsSettled =>
          OrderOfWaiting(s.(http := s.http.(admitAdoptions := false)));
        case AdoptionsSettled => OrderOfWaiting(s);
        case ListenerDown => OrderOfListener(s);
        case _ =>
      }
    }
  }

  // ----- everything is given back -----

  ghost predicate GivenInv(s: State) {
    && (s.res.engine || s.pc.Serving? || s.memo ==> s.res.db != Absent)
    && (s.pc.HookRuns? || s.pc.WaitingSends? || s.pc.WaitingAdoptions? || s.pc.ClosingListener? || s.pc.Done? ==>
          !s.res.hook)
    && (s.pc == ClosingListener(Graceful) || s.pc.Done? ==> s.res.db != Open && s.res.agora != Open)
    && (s.pc == Done(Graceful) ==> !s.res.listening)
    && (s.pc.ClosingListener? ==> !s.pc.mode.StartupFailure?)
  }

  lemma GivenAfterWaiting(s: State)
    requires GivenInv(s) && s.memo && (s.pc.HookRuns? || s.pc.WaitingSends? || s.pc.WaitingAdoptions?)
    ensures GivenInv(AwaitAdoptions(s)) && GivenInv(AwaitSends(s))
    ensures GivenInv(AwaitSends(s.(http := s.http.(admitSends := false))))
  {
  }

  lemma GivenAfterHook(s: State)
    requires AdmitInv(s) && GivenInv(s) && s.pc.HookRuns?
    ensures GivenInv(AfterHook(s))
  {
    if s.pc.mode.Graceful? {
      GivenAfterWaiting(s);
    }
  }

  lemma GivenAfterStopping(s: State, drained: bool)
    requires AdmitInv(s) && GivenInv(s) && s.pc.Stopping?
    ensures GivenInv(AfterStopping(s, drained))
  {
  }

  lemma GivenAfterListener(s: State)
    requires GivenInv(s) && s.pc.ClosingListener?
    ensures GivenInv(AfterListener(s))
  {
  }

  lemma GivenKept(s: State, e: Step)
    requires AdmitInv(s) && GivenInv(s) && Enabled(s, e)
    ensures GivenInv(Apply(s, e))
  {
    match e
    case Stopped(drained) => GivenAfterStopping(s, drained);
    case HookSettled => GivenAfterHook(s);
    case SendsSettled => GivenAfterWaiting(s);
    case AdoptionsSettled => GivenAfterWaiting(s);
    case ListenerDown => GivenAfterListener(s);
    case _ =>
  }

  // ----- the results, for every run -----

  ghost predicate Inv(s: State) {
    OnceInv(s) && AdmitInv(s) && WaitInv(s) && OrderInv(s) && GivenInv(s)
  }

  lemma {:induction false} RunKeeps(states: seq<State>, steps: seq<Step>, k: nat)
    requires Run(states, steps) && k < |states|
    ensures Inv(states[k])
  {
    if k > 0 {
      RunKeeps(states, steps, k - 1);
      var s, e := states[k - 1], steps[k - 1];
      OnceKept(s, e);
      AdmitKept(s, e);
      WaitKept(s, e);
      OrderKept(s, e);
      GivenKept(s, e);
    }
  }

  /** On every path, through startup failures, failed listens, failed drains and retries:
      the owned hook is called at most once and each store is closed at most once. */
  lemma GivenBackAtMostOnce(states: seq<State>, steps: seq<Step>, k: nat)
    requires Run(states, steps) && k < |states|
    ensures NoneTwice(states[k].res.log)
  {
    RunKeeps(states, steps, k);
  }

  /** When teardown is over, the hook has been consumed and no store is open; after a
      shutdown the database was closed and the listener is down. */
  lemma DoneLeavesNothingOpen(states: seq<State>, steps: seq<Step>, k: nat)
    requires Run(states, steps) && k < |states| && states[k].pc.Done?
    ensures !states[k].res.hook && states[k].res.db != Open && states[k].res.agora != Open
    ensures states[k].pc.mode.Graceful? ==> states[k].res.db == Closed && !states[k].res.listening
  {
    RunKeeps(states, steps, k);
  }

  /** A shutdown goes drain, hook, AGORA, database, listener, and closes a store only after
      a drain of the engine that succeeded. */
  lemma TeardownInOrder(states: seq<State>, steps: seq<Step>, k: nat, at: nat)
    requires Run(states, steps) && k < |states|
    requires states[k].memo || states[k].pc.Serving?
    requires at < |states[k].res.log| && states[k].res.log[at] in {HookCalled, AgoraClosed, DbClosed, ListenerClosed}
    ensures Ordered(states[k].res.log)
    ensures exists d :: 0 <= d < at && states[k].res.log[d] == EngineDrained
  {
    RunKeeps(states, steps, k);
    var log := states[k].res.log;
    assert Rank(log[at]) > 0;
    assert !states[k].pc.Serving? && !states[k].pc.Stopping?;
    var d :| 0 <= d < |log| && log[d] == EngineDrained;
    assert Rank(log[d]) < Rank(log[at]);
  }

  /** Steps after which teardown goes on although the engine was not drained: a startup that
      fails, which does not try, and a drain that fails after a failed listen. */
  predicate SkipsDrain(s: State, e: Step) {
    e.FailsEarly? || e.FailsLate? || (e == Stopped(false) && s.pc == Stopping(ListenFailure))
  }

  predicate PastDrain(pc: Pc) {
    !pc.Booting? && !pc.Serving? && (pc.Stopping? ==> pc.mode.StartupFailure?)
  }

  /** `skipped`: some step so far skipped the drain. */
  ghost predicate DrainInv(s: State, skipped: bool) {
    && (skipped ==> PastDrain(s.pc) && !s.memo && EngineDrained !in s.res.log)
    && (!skipped && PastDrain(s.pc) ==> EngineDrained in s.res.log)
    && (s.pc == Stopping(ListenFailure) ==> s.res.log == [])
  }

  lemma LoggedKeeps(r: Resources, e: Event)
    ensures EngineDrained in Logged(r, e).log <==> EngineDrained in r.log || e == EngineDrained
  {
    LoggedIn(r, e);
  }

  lemma ClosingKeepsDrained(r: Resources)
    ensures EngineDrained in CloseStores(r).log <==> EngineDrained in r.log
    ensures EngineDrained in CloseAgora(CloseListener(r)).log <==> EngineDrained in r.log
    ensures EngineDrained in CallHook(r).log <==> EngineDrained in r.log
  {
    LoggedKeeps(r.(agora := Closed), AgoraClosed);
    LoggedKeeps(CloseAgora(r).(db := Closed), DbClosed);
    LoggedKeeps(r.(listening := false), ListenerClosed);
    LoggedKeeps(CloseListener(r).(agora := Closed), AgoraClosed);
    LoggedKeeps(r.(hook := false), HookCalled);
  }

  lemma DrainKept(s: State, e: Step, skipped: bool)
    requires AdmitInv(s) && OrderInv(s) && GivenInv(s) && DrainInv(s, skipped) && Enabled(s, e)
    ensures DrainInv(Apply(s, e), skipped || SkipsDrain(s, e))
  {
    if s.pc.Booting? {
      assert Apply(s, e).res.log == [];
    } else {
      ClosingKeepsDrained(s.res);
      LoggedKeeps(s.res, EngineDrained);
      LoggedKeeps(s.res, DrainFailed);
      LoggedKeeps(s.res.(listening := false), ListenerClosed);
    }
  }

  ghost predicate Skipped(states: seq<State>, steps: seq<Step>, k: nat)
    requires |states| == |steps| + 1 && k < |states|
  {
    exists i :: 0 <= i < k && SkipsDrain(states[i], steps[i])
  }

  lemma {:induction false} RunDrains(states: seq<State>, steps: seq<Step>, k: nat)
    requires Run(states, steps) && k < |states|
    ensures DrainInv(states[k], Skipped(states, steps, k))
  {
    if k > 0 {
      RunDrains(states, steps, k - 1);
      RunKeeps(states, steps, k - 1);
      DrainKept(states[k - 1], steps[k - 1], Skipped(states, steps, k - 1));
    }
  }

  /** Once a store is closed, on whatever path, the engine has been drained exactly if no
      startup failed and no drain failed after a failed listen. */
  lemma ClosedUndrainedIffSkipped(states: seq<State>, steps: seq<Step>, k: nat)
    requires Run(states, steps) && k < |states| && AnyClosed(states[k].res)
    ensures EngineDrained !in states[k].res.log <==> Skipped(states, steps, k)
  {
    RunKeeps(states, steps, k);
    RunDrains(states, steps, k);
    var s := states[k];
    assert AgoraClosed in s.res.log || DbClosed in s.res.log;
    assert Rank(AgoraClosed) == 3 && Rank(DbClosed) == 4;
    assert PastDrain(s.pc);
  }

  /** The path is there from every startup about to listen: the listen fails, the drain fails,
      and the database is closed. */
  lemma FailedListenClosesUndrained(states: seq<State>, steps: seq<Step>)
    returns (states': seq<State>, steps': seq<Step>)
    requires Run(states, steps) && states[|steps|].pc.Booting? && states[|steps|].res.engine
    ensures Run(states', steps') && steps <= steps' && states'[|steps'|].res.db.Closed?
    ensures EngineDrained !in states'[|steps'|].res.log
  {
    states', steps' := FailedListen(states, steps);
    states', steps' := RunAdds(states', steps', HookSettled);
    states', steps' := RunAdds(states', steps', ListenerDown);
    states', steps' := RunAdds(states', steps', Stopped(false));
    states', steps' := RunAdds(states', steps', ConnectorsStopped);
    states', steps' := RunAdds(states', steps', HookSettled);
    assert SkipsDrain(states'[|steps| + 1], steps'[|steps| + 1]);
    RunDrains(states', steps', |steps'|);
  }

  /** The listen and the drain after it fail. */
  lemma FailedListen(states: seq<State>, steps: seq<Step>) returns (states': seq<State>, steps': seq<Step>)
    requires Run(states, steps) && states[|steps|].pc.Booting? && states[|steps|].res.engine
    ensures Run(states', steps') && steps' == steps + [ListenFails] + [Stopped(false)] + [ConnectorsStopped]
    ensures SkipsDrain(states'[|steps| + 1], steps'[|steps| + 1])
    ensures states'[|steps'|].pc == HookRuns(ListenFailure) && states'[|steps'|].res.db.Open?
  {
    RunKeeps(states, steps, |steps|);
    states', steps' := RunAdds(states, steps, ListenFails);
    states', steps' := RunAdds(states', steps', Stopped(false));
    states', steps' := RunAdds(states', steps', ConnectorsStopped);
  }

  /** A failed drain gives nothing back and can be retried, while the server stays draining. */
  lemma FailedDrainClosesNothing(states: seq<State>, steps: seq<Step>, k: nat)
    requires Run(states, steps) && k < |states| && states[k].pc.Serving?
    ensures forall i :: 0 <= i < |states[k].res.log| ==> states[k].res.log[i] == DrainFailed
    ensures states[k].res.db == Open && !AnyClosed(states[k].res)
    ensures Apply(states[k], Shutdown).pc == Stopping(Graceful)
    ensures DrainFailed in states[k].res.log ==> states[k].http.draining
  {
    RunKeeps(states, steps, k);
    forall i | 0 <= i < |states[k].res.log| ensures states[k].res.log[i] == DrainFailed {
      assert Rank(states[k].res.log[i]) == 0;
    }
    FailureMeansDraining(states, steps, k);
  }

  lemma {:induction false} FailureMeansDraining(states: seq<State>, steps: seq<Step>, k: nat)
    requires Run(states, steps) && k < |states|
    requires states[k].memo || states[k].pc.Serving?
    ensures DrainFailed in states[k].res.log ==> states[k].http.draining
  {
    if k > 0 {
      RunKeeps(states, steps, k - 1);
      if states[k - 1].memo || states[k - 1].pc.Serving? {
        FailureMeansDraining(states, steps, k - 1);
        assert states[k - 1].http.draining ==> states[k].http.draining;
        assert !states[k - 1].http.draining ==> states[k].res.log == states[k - 1].res.log;
      } else {
        assert states[k - 1].pc.Booting?;
      }
    }
  }

  lemma {:induction false} RunStaysQuiet(states: seq<State>, steps: seq<Step>, k: nat)
    requires Run(states, steps) && k < |states|
    requires forall i :: 0 <= i < k ==> !steps[i].FailsLate?
    ensures QuietInv(states[k])
  {
    if k > 0 {
      RunStaysQuiet(states, steps, k - 1);
      RunKeeps(states, steps, k - 1);
      QuietKept(states[k - 1], steps[k - 1]);
    }
  }

  /** Unless startup failed after the listener was up, no admitted send or adoption is in
      flight once a store is closed, then or later. */
  lemma NothingClosesUnderAHandler(states: seq<State>, steps: seq<Step>, k: nat)
    requires Run(states, steps) && k < |states|
    requires forall i :: 0 <= i < k ==> !steps[i].FailsLate?
    requires AnyClosed(states[k].res)
    ensures Idle(states[k].http)
  {
    RunStaysQuiet(states, steps, k);
  }

  /** A startup about to listen, its failure once the listener is up, and an adoption begun
      while the failure is being handled. */
  lemma FailsLateThenAdmits(states: seq<State>, steps: seq<Step>) returns (states': seq<State>, steps': seq<Step>)
    requires Run(states, steps) && states[|steps|].pc.Booting? && states[|steps|].res.engine
    ensures Run(states', steps') && steps' == steps + [FailsLate] + [BeginAdoption]
    ensures var s := states'[|steps'|];
            s.pc == Stopping(StartupFailure) && s.res.db.Open? && s.http.nextHandler - 1 in s.http.adoptions
  {
    RunKeeps(states, steps, |steps|);
    states', steps' := RunAdds(states, steps, FailsLate);
    states', steps' := RunAdds(states', steps', BeginAdoption);
  }

  /** The exception is real: whenever startup could fail after the listener is up, it fails to
      stop the listener or refuse handlers, and one begun meanwhile sees its stores closed. */
  lemma LateFailureClosesUnderAHandler(states: seq<State>, steps: seq<Step>)
    returns (states': seq<State>, steps': seq<Step>)
    requires Run(states, steps) && states[|steps|].pc.Booting? && states[|steps|].res.engine
    ensures Run(states', steps')
    ensures steps' == steps + [FailsLate] + [BeginAdoption] + [Stopped(false)] + [ConnectorsStopped] + [HookSettled]
    ensures AnyClosed(states'[|steps'|].res) && !Idle(states'[|steps'|].http)
  {
    states', steps' := FailsLateThenAdmits(states, steps);
    states', steps' := RunAdds(states', steps', Stopped(false));
    states', steps' := RunAdds(states', steps', ConnectorsStopped);
    states', steps' := RunAdds(states', steps', HookSettled);
    var s := states'[|steps'|];
    assert s.res.db == Closed && s.http.nextHandler - 1 in s.http.adoptions;
  }

  /** Such a startup there is: a database and an engine, from the start. */
  lemma AboutToListen() returns (states: seq<State>, steps: seq<Step>)
    ensures Run(states, steps) && steps == [OpenDb] + [StartEngine]
    ensures states[|steps|].pc.Booting? && states[|steps|].res.engine
  {
    states, steps := RunAdds([Start()], [], OpenDb);
    states, steps := RunAdds(states, steps, StartEngine);
  }

  /** So both happen: a run from the start that closes the database undrained, and one that
      closes it under a handler. */
  lemma BothFailuresHappen()
    returns (undrained: seq<State>, undrainedBy: seq<Step>, under: seq<State>, underBy: seq<Step>)
    ensures Run(undrained, undrainedBy) && Run(under, underBy)
    ensures undrained[|undrainedBy|].res.db.Closed? && EngineDrained !in undrained[|undrainedBy|].res.log
    ensures AnyClosed(under[|underBy|].res) && !Idle(under[|underBy|].http)
  {
    var states, steps := AboutToListen();
    undrained, undrainedBy := FailedListenClosesUndrained(states, steps);
    under, underBy := LateFailureClosesUnderAHandler(states, steps);
  }

  lemma RunAdds(states: seq<State>, steps: seq<Step>, e: Step) returns (states': seq<State>, steps': seq<Step>)
    requires Run(states, steps) && Enabled(states[|steps|], e)
    ensures Run(states', steps') && states'[|steps'|] == Apply(states[|steps|], e) && steps' == steps + [e]
    ensures states <= states'
  {
    states', steps' := states + [Apply(states[|steps|], e)], steps + [e];
  }

  /** A server that is not draining admits: no handler ever runs untracked. */
  lemma EveryHandlerIsTracked(states: seq<State>, steps: seq<Step>, k: nat)
    requires Run(states, steps) && k < |states| && !states[k].http.draining
    ensures AdmitSend(states[k].http).sends == states[k].http.sends + {states[k].http.nextHandler}
    ensures AdmitAdoption(states[k].http).adoptions == states[k].http.adoptions + {states[k].http.nextHandler}
    ensures states[k].http.nextHandler !in states[k].http.sends + states[k].http.adoptions
  {
    RunKeeps(states, steps, k);
  }

  function Stage(pc: Pc): nat {
    match pc
    case Booting => 9
    case Serving => 9
    case Stopping(mode) => if mode.ListenFailure? then 13 else 8
    case Connectors(mode) => if mode.ListenFailure? then 12 else 7
    case HookRuns(mode) => if mode.ListenFailure? then 11 else 6
    case WaitingSends(_) => 5
    case WaitingAdoptions(_) => 4
    case ClosingListener(mode) => if mode.ListenFailure? then 10 else 3
    case Done(_) => 0
  }

  /** Every wait of a teardown brings it closer to its end, a failed drain of a shutdown aside. */
  lemma TeardownProgresses(states: seq<State>, steps: seq<Step>, k: nat, e: Step)
    requires Run(states, steps) && k < |states| && Enabled(states[k], e)
    requires e in {Stopped(true), Stopped(false), ConnectorsStopped, HookSettled, SendsSettled, AdoptionsSettled,
                   ListenerDown}
    ensures Stage(Apply(states[k], e).pc) < Stage(states[k].pc)
         || (e == Stopped(false) && Apply(states[k], e).pc.Serving?)
  {
    RunKeeps(states, steps, k);
    SettledMeansNone(states[k], e);
  }

  // ----- the closures -----

  /** The controls `createApp` hands out. */
  class ServerControls {
    var draining: bool
    var admitAgoraSends: bool
    var admitTrialAdoptions: bool
    var inFlightAgoraSends: set<nat>
    var inFlightTrialAdoptions: set<nat>
    var nextHandler: nat

    ghost function Value(): Controls
      reads this
    {
      Controls(draining, admitAgoraSends, admitTrialAdoptions, inFlightAgoraSends, inFlightTrialAdoptions, nextHandler)
    }

    constructor ()
      ensures Value() == Start().http
    {
      draining, admitAgoraSends, admitTrialAdoptions := false, true, true;
      inFlightAgoraSends, inFlightTrialAdoptions, nextHandler := {}, {}, 0;
    }

    method MarkDraining()
      modifies this
      ensures Value() == old(Value()).(draining := true)
    {
      draining := true;
    }

    /** The check of the send route and `beginAgoraSend`; `handler` is what ends the send. */
    method BeginAgoraSend() returns (refused: bool, handler: Option<nat>)
      modifies this
      ensures Value() == AdmitSend(old(Value()))
      ensures refused == old(draining)
      ensures handler == if old(draining) || !old(admitAgoraSends) then None else Some(old(nextHandler))
    {
      if draining {
        return true, None;
      }
      if !admitAgoraSends {
        return false, None;
      }
      inFlightAgoraSends := inFlightAgoraSends + {nextHandler};
      nextHandler := nextHandler + 1;
      return false, Some(nextHandler - 1);
    }

    method EndAgoraSend(handler: nat)
      modifies this
      ensures Value() == old(Value()).(sends := old(Value()).sends - {handler})
    {
      inFlightAgoraSends := inFlightAgoraSends - {handler};
    }

    method BeginTrialAdoption() returns (refused: bool, handler: Option<nat>)
      modifies this
      ensures Value() == AdmitAdoption(old(Value()))
      ensures refused == old(draining)
      ensures handler == if old(draining) || !old(admitTrialAdoptions) then None else Some(old(nextHandler))
    {
      if draining {
        return true, None;
      }
      if !admitTrialAdoptions {
        return false, None;
      }
      inFlightTrialAdoptions := inFlightTrialAdoptions + {nextHandler};
      nextHandler := nextHandler + 1;
      return false, Some(nextHandler - 1);
    }

    method EndTrialAdoption(handler: nat)
      modifies this
      ensures Value() == old(Value()).(adoptions := old(Value()).adoptions - {handler})
    {
      inFlightTrialAdoptions := inFlightTrialAdoptions - {handler};
    }

    method RefuseSends()
      modifies this
      ensures Value() == old(Value()).(admitSends := false)
    {
      admitAgoraSends := false;
    }

    method RefuseAdoptions()
      modifies this
      ensures Value() == old(Value()).(admitAdoptions := false)
    {
      admitTrialAdoptions := false;
    }
  }

  /** The variables of `startServer` and its teardown paths; each method is the code between
      two awaits, and `pc` is the await it stops at. */
  class Server {
    const controls: ServerControls
    var pc: Pc
    var shuttingDown: bool
    var handle: Store
    var agoraStore: Store
    var ownedActionShutdown: bool
    var engine: bool
    var listening: bool
    ghost var log: seq<Event>

    ghost function Held(): Resources
      reads this
    {
      Resources(handle, agoraStore, ownedActionShutdown, engine, listening, log)
    }

    ghost function Value(): State
      reads this, controls
    {
      State(pc, shuttingDown, Held(), controls.Value())
    }

    constructor ()
      ensures Value() == Start() && fresh(controls)
    {
      controls := new ServerControls();
      pc, shuttingDown, handle, agoraStore, ownedActionShutdown, engine, listening, log :=
        Booting, false, Absent, Absent, false, false, false, [];
    }

    method CloseAgoraStore()
      modifies this`agoraStore, this`log
      ensures Held() == CloseAgora(old(Held()))
    {
      if agoraStore.Open? {
        agoraStore := Closed;
        log := log + [AgoraClosed];
      }
    }

    method CloseKernelDatabase()
      modifies this`handle, this`log
      ensures Held() == CloseDb(old(Held()))
    {
      if handle.Open? {
        handle := Closed;
        log := log + [DbClosed];
      }
    }

    method TakeOwnedActionShutdown() returns (hook: bool)
      modifies this`ownedActionShutdown
      ensures hook == old(ownedActionShutdown) && !ownedActionShutdown
    {
      hook := ownedActionShutdown;
      ownedActionShutdown := false;
    }

    method Shutdown()
      requires Enabled(Value(), Step.Shutdown)
      modifies this`pc, this`shuttingDown, controls
      ensures Value() == Apply(old(Value()), Step.Shutdown)
    {
      if shuttingDown {
        return;
      }
      controls.MarkDraining();
      shuttingDown := true;
      pc := Stopping(Graceful);
    }

    method OnStopped(drained: bool)
      requires Enabled(Value(), Stopped(drained))
      modifies this`pc, this`shuttingDown, this`log
      ensures Value() == Apply(old(Value()), Stopped(drained))
    {
      var mode := pc.mode;
      if mode.StartupFailure? {
        pc := Connectors(mode);
        return;
      }
      log := log + [if drained then EngineDrained else DrainFailed];
      if drained || mode.ListenFailure? {
        pc := Connectors(mode);
      } else {
        shuttingDown := false;
        pc := Serving;
      }
    }

    method OnConnectorsStopped()
      requires Enabled(Value(), ConnectorsStopped)
      modifies this`pc, this`ownedActionShutdown, this`log
      ensures Value() == Apply(old(Value()), ConnectorsStopped)
    {
      var hook := TakeOwnedActionShutdown();
      if hook {
        log := log + [HookCalled];
      }
      pc := HookRuns(pc.mode);
    }

    method OnHookSettled()
      requires Enabled(Value(), HookSettled)
      modifies this, controls
      ensures Value() == Apply(old(Value()), HookSettled)
    {
      match pc.mode
      case Graceful =>
        controls.RefuseSends();
        WaitForSends();
      case ListenFailure => pc := ClosingListener(ListenFailure);
      case StartupFailure =>
        CloseAgoraStore();
        CloseKernelDatabase();
        pc := Done(StartupFailure);
    }

    method WaitForSends()
      modifies this, controls
      ensures Value() == AwaitSends(old(Value()))
    {
      if controls.inFlightAgoraSends != {} {
        pc := WaitingSends(controls.inFlightAgoraSends);
      } else {
        controls.RefuseAdoptions();
        WaitForAdoptions();
      }
    }

    method WaitForAdoptions()
      modifies this
      ensures Value() == AwaitAdoptions(old(Value()))
    {
      if controls.inFlightTrialAdoptions != {} {
        pc := WaitingAdoptions(controls.inFlightTrialAdoptions);
      } else {
        CloseAgoraStore();
        CloseKernelDatabase();
        pc := ClosingListener(Graceful);
      }
    }

    /** The handlers of the last snapshot of sends are over. */
    method OnSendsSettled()
      requires Enabled(Value(), SendsSettled)
      modifies this, controls
      ensures Value() == Apply(old(Value()), SendsSettled)
    {
      WaitForSends();
    }

    method OnAdoptionsSettled()
      requires Enabled(Value(), AdoptionsSettled)
      modifies this
      ensures Value() == Apply(old(Value()), AdoptionsSettled)
    {
      WaitForAdoptions();
    }

    /** The steps of startup. */
    method StartUp(e: Step)
      requires Enabled(Value(), e)
      requires e in {OpenDb, OpenAgora, AdoptHook, StartEngine, Listens, ListenFails, FailsEarly, FailsLate}
      modifies this`pc, this`handle, this`agoraStore, this`ownedActionShutdown, this`engine, this`listening
      ensures Value() == Apply(old(Value()), e)
    {
      match e
      case OpenDb => handle := Open;
      case OpenAgora => agoraStore := Open;
      case AdoptHook => ownedActionShutdown := true;
      case StartEngine => engine := true;
      case Listens => pc, listening := Serving, true;
      case ListenFails => pc := Stopping(ListenFailure);
      case FailsEarly => pc := Stopping(StartupFailure);
      case FailsLate => pc, listening := Stopping(StartupFailure), true;
    }

    method OnListenerDown()
      requires Enabled(Value(), ListenerDown)
      modifies this
      ensures Value() == Apply(old(Value()), ListenerDown)
    {
      listening := false;
      log := log + [ListenerClosed];
      if pc.mode.Graceful? {
        pc := Done(Graceful);
      } else {
        CloseAgoraStore();
        pc := Stopping(StartupFailure);
      }
    }
  }

  /** A server with the record of everything that has happened to it. */
  class ServerHost {
    const server: Server
    ghost var states: seq<State>
    ghost var steps: seq<Step>

    /** The record is a run, and the server is where it ends. */
    ghost predicate Valid()
      reads this, server, server.controls
    {
      Run(states, steps) && server.Value() == states[|steps|]
    }

    constructor ()
      ensures Valid() && steps == [] && fresh(server) && fresh(server.controls)
    {
      server := new Server();
      states, steps := [Start()], [];
    }

    /** Any enabled step keeps the record exact, and with it whatever holds of every run. */
    method Perform(e: Step)
      requires Valid() && Enabled(server.Value(), e)
      modifies this`states, this`steps, server, server.controls
      ensures Valid() && steps == old(steps) + [e] && old(states) <= states
      ensures Inv(server.Value())
    {
      Dispatch(e);
      ghost var longer, more := RunAdds(states, steps, e);
      states, steps := longer, more;
      RunKeeps(states, steps, |steps|);
    }

    method Dispatch(e: Step)
      requires Enabled(server.Value(), e)
      modifies server, server.controls
      ensures server.Value() == Apply(old(server.Value()), e)
    {
      match e
      case BeginSend => var _, _ := server.controls.BeginAgoraSend();
      case EndSend(handler) => server.controls.EndAgoraSend(handler);
      case BeginAdoption => var _, _ := server.controls.BeginTrialAdoption();
      case EndAdoption(handler) => server.controls.EndTrialAdoption(handler);
      case Shutdown => server.Shutdown();
      case Stopped(drained) => server.OnStopped(drained);
      case ConnectorsStopped => server.OnConnectorsStopped();
      case HookSettled => server.OnHookSettled();
      case SendsSettled => server.OnSendsSettled();
      case AdoptionsSettled => server.OnAdoptionsSettled();
      case ListenerDown => server.OnListenerDown();
      case _ => server.StartUp(e);
    }
  }
}
