/**
 The shared single-slot background gate (apps/server/src/background_resource.ts).

 `Gate` is the value the closure variables hold; `BackgroundResourceGate` is the
 object.  `release` calls its wakes synchronously and a wake may call back into
 the gate, so what each wake does is a `Script`: a finite tree of gate calls in
 which a nested release carries the scripts of the wakes it runs.  A wake that
 throws is caught by the release loop; its script simply ends early.
 */
module BackgroundGate {
  import opened Options
  import opened Sequences

  type Owner = string
  type WakeId = nat

  const AUTODISPATCH: Owner := "autodispatch"

  datatype Reservation = Reservation(owner: Owner, token: nat)

  datatype Gate = Gate(holder: Option<Reservation>, nextToken: nat, closed: bool, wakes: seq<WakeId>)

  const NEW_GATE := Gate(None, 1, false, [])

  // ----- the gate operations as functions of the state -----

  predicate Holds(g: Gate, token: nat) {
    g.holder.Some? && g.holder.value.token == token
  }

  predicate CanAcquire(g: Gate) {
    !g.closed && g.holder.None?
  }

  function Acquired(g: Gate, owner: Owner): Gate
    requires CanAcquire(g)
  {
    g.(holder := Some(Reservation(owner, g.nextToken)), nextToken := g.nextToken + 1)
  }

  /** The first half of `release`: the slot is empty again, no wake has run yet. */
  function Freed(g: Gate, token: nat): Gate {
    if Holds(g, token) then g.(holder := None) else g
  }

  function Subscribed(g: Gate, w: WakeId): Gate {
    if w in g.wakes then g else g.(wakes := g.wakes + [w])
  }

  function Unsubscribed(g: Gate, w: WakeId): Gate {
    g.(wakes := Without(g.wakes, w))
  }

  function ShutDown(g: Gate): Gate {
    g.(closed := true, wakes := [])
  }

  // ----- re-entrant runs of the gate -----

  datatype Script =
    | Return
    | Acquire(owner: Owner, next: Script)
    | Release(token: nat, inner: Scripts, next: Script)
    | Close(next: Script)
    | Reopen(next: Script)
    | Subscribe(wake: WakeId, next: Script)
    | Unsubscribe(wake: WakeId, next: Script)
    | Shutdown(next: Script)

  /** What the wakes of one release do, in order; the ones past the end do nothing. */
  datatype Scripts = Idle | Wakes(first: Script, rest: Scripts)

  /** What the calls of a run came to, in the order they were made. */
  datatype Event =
    | Admitted(lease: Reservation)
    | Refused(owner: Owner)
    | Released(token: nat, snapshot: seq<WakeId>)
    | Ignored(token: nat)
    | Woke(token: nat, wake: WakeId)
    | Shut(forget: bool)
    | Unshut
    | Registered(wake: WakeId)
    | Unregistered(wake: WakeId)

  datatype Trace = Trace(gate: Gate, log: seq<Event>)

  function Perform(t: Trace, s: Script): Trace
    decreases s, 0
  {
    match s
    case Return => t
    case Acquire(owner, next) =>
      if CanAcquire(t.gate) then
        var g := Acquired(t.gate, owner);
        Perform(Trace(g, t.log + [Admitted(g.holder.value)]), next)
      else Perform(Trace(t.gate, t.log + [Refused(owner)]), next)
    case Release(token, inner, next) =>
      if Holds(t.gate, token) then
        Perform(RunWakes(Opened(t, token), token, t.gate.wakes, inner), next)
      else Perform(Trace(t.gate, t.log + [Ignored(token)]), next)
    case Close(next) => Perform(Trace(t.gate.(closed := true), t.log + [Shut(false)]), next)
    case Reopen(next) => Perform(Trace(t.gate.(closed := false), t.log + [Unshut]), next)
    case Subscribe(w, next) => Perform(Trace(Subscribed(t.gate, w), t.log + [Registered(w)]), next)
    case Unsubscribe(w, next) => Perform(Trace(Unsubscribed(t.gate, w), t.log + [Unregistered(w)]), next)
    case Shutdown(next) => Perform(Trace(ShutDown(t.gate), t.log + [Shut(true)]), next)
  }

  /** A genuine release up to, and not including, its wake loop. */
  function Opened(t: Trace, token: nat): Trace {
    Trace(Freed(t.gate, token), t.log + [Event.Released(token, t.gate.wakes)])
  }

  function RunWakes(t: Trace, token: nat, snapshot: seq<WakeId>, scripts: Scripts): Trace
    decreases scripts, |snapshot|
  {
    if snapshot == [] then t
    else
      var called := t.(log := t.log + [Woke(token, snapshot[0])]);
      match scripts
      case Idle => RunWakes(called, token, snapshot[1..], Idle)
      case Wakes(first, rest) => RunWakes(Perform(called, first), token, snapshot[1..], rest)
  }

  // ----- reading a log -----

  function Last(log: seq<Event>): Event
    requires log != []
  {
    log[|log| - 1]
  }

  function Prefix(log: seq<Event>): seq<Event>
    requires log != []
  {
    log[..|log| - 1]
  }

  /** Leases granted and not given back yet. */
  function Live(log: seq<Event>): set<nat> {
    if log == [] then {}
    else
      match Last(log)
      case Admitted(lease) => Live(Prefix(log)) + {lease.token}
      case Released(token, _) => Live(Prefix(log)) - {token}
      case _ => Live(Prefix(log))
  }

  /** Leases given back. */
  function Returned(log: seq<Event>): set<nat> {
    if log == [] then {}
    else if Last(log).Released? then Returned(Prefix(log)) + {Last(log).token}
    else Returned(Prefix(log))
  }

  /** The wakes registered when `token` was given back. */
  function Snapshot(log: seq<Event>, token: nat): seq<WakeId> {
    if log == [] then []
    else if Last(log).Released? && Last(log).token == token then Last(log).snapshot
    else Snapshot(Prefix(log), token)
  }

  /** The wakes run on behalf of the release of `token`, in order. */
  function WokenBy(log: seq<Event>, token: nat): seq<WakeId> {
    if log == [] then []
    else
      WokenBy(Prefix(log), token) +
      (if Last(log).Woke? && Last(log).token == token then [Last(log).wake] else [])
  }

  /** Closed, or shut down, and not reopened since. */
  predicate ClosedIn(log: seq<Event>) {
    log != [] && (Last(log).Shut? || (!Last(log).Unshut? && ClosedIn(Prefix(log))))
  }

  function WakesAfter(e: Event, wakes: set<WakeId>): set<WakeId> {
    match e
    case Registered(w) => wakes + {w}
    case Unregistered(w) => wakes - {w}
    case Shut(forget) => if forget then {} else wakes
    case _ => wakes
  }

  /** The wakes registered, not unregistered since and not forgotten by a shutdown since. */
  function WakesIn(log: seq<Event>): set<WakeId> {
    if log == [] then {} else WakesAfter(Last(log), WakesIn(Prefix(log)))
  }

  function Elements(ws: seq<WakeId>): set<WakeId> {
    set w | w in ws
  }

  /** Every event was legal when it happened: a lease is granted exactly if the gate is open and
      none is live, and with a token above all earlier ones; a token is given back exactly if it
      is the live one, with the wakes registered then, each once; and a wake runs only for a
      lease already given back. */
  ghost predicate Legal(log: seq<Event>) {
    log == [] ||
    (Legal(Prefix(log)) &&
     match Last(log)
     case Admitted(lease) =>
       !ClosedIn(Prefix(log)) && Live(Prefix(log)) == {} && forall u :: u in Returned(Prefix(log)) ==> u < lease.token
     case Refused(_) => ClosedIn(Prefix(log)) || Live(Prefix(log)) != {}
     case Released(token, snapshot) =>
       && Live(Prefix(log)) == {token} && token !in Returned(Prefix(log))
       && NoDuplicates(snapshot) && Elements(snapshot) == WakesIn(Prefix(log))
     case Ignored(token) => token !in Live(Prefix(log))
     case Woke(token, _) => token in Returned(Prefix(log))
     case _ => true)
  }

  ghost predicate Consistent(t: Trace) {
    && Legal(t.log) && NoDuplicates(t.gate.wakes)
    && t.gate.closed == ClosedIn(t.log) && Elements(t.gate.wakes) == WakesIn(t.log)
    && Live(t.log) == (if t.gate.holder.Some? then {t.gate.holder.value.token} else {})
    && (forall u :: u in Returned(t.log) ==> u < t.gate.nextToken)
    && (t.gate.holder.Some? ==>
          t.gate.holder.value.token < t.gate.nextToken && t.gate.holder.value.token !in Returned(t.log))
  }

  /** From `before` to `after` the log only grew, no wake was added to a release
      already under way, and every release begun in between ran its snapshot. */
  ghost predicate Extends(before: Trace, after: Trace) {
    && before.log <= after.log
    && before.gate.nextToken <= after.gate.nextToken
    && Returned(before.log) <= Returned(after.log)
    && (forall u :: u in Returned(before.log) ==>
          WokenBy(after.log, u) == WokenBy(before.log, u) && Snapshot(after.log, u) == Snapshot(before.log, u))
    && (forall u :: u in Returned(after.log) && u !in Returned(before.log) ==>
          WokenBy(after.log, u) == Snapshot(after.log, u))
  }

  lemma {:induction false} ExtendsTrans(a: Trace, b: Trace, c: Trace)
    requires Extends(a, b) && Extends(b, c)
    ensures Extends(a, c)
  {
    forall u | u in Returned(c.log) && u !in Returned(a.log)
      ensures WokenBy(c.log, u) == Snapshot(c.log, u)
    {
      if u in Returned(b.log) {
        assert WokenBy(c.log, u) == WokenBy(b.log, u);
      }
    }
  }

  lemma {:induction false} NotReturnedNotWoken(log: seq<Event>, token: nat)
    requires Legal(log) && token !in Returned(log)
    ensures WokenBy(log, token) == []
  {
    if log != [] {
      NotReturnedNotWoken(Prefix(log), token);
    }
  }

  /** An event that neither grants nor gives back nor wakes. */
  predicate Plain(e: Event) {
    !e.Admitted? && !e.Released? && !e.Woke?
  }

  lemma PlainExtends(t: Trace, g: Gate, e: Event)
    requires Plain(e) && g.nextToken == t.gate.nextToken
    ensures Prefix(t.log + [e]) == t.log && Last(t.log + [e]) == e
    ensures Live(t.log + [e]) == Live(t.log) && Returned(t.log + [e]) == Returned(t.log)
    ensures Extends(t, Trace(g, t.log + [e]))
  {
    var log := t.log + [e];
    assert Prefix(log) == t.log;
  }

  /** The trace after the first call of a script that gives nothing back. */
  function FirstCall(t: Trace, s: Script): Trace
    requires !s.Return? && (s.Release? ==> !Holds(t.gate, s.token))
  {
    match s
    case Acquire(owner, _) =>
      if CanAcquire(t.gate) then
        var g := Acquired(t.gate, owner);
        Trace(g, t.log + [Admitted(g.holder.value)])
      else Trace(t.gate, t.log + [Refused(owner)])
    case Release(token, _, _) => Trace(t.gate, t.log + [Ignored(token)])
    case Close(_) => Trace(t.gate.(closed := true), t.log + [Shut(false)])
    case Reopen(_) => Trace(t.gate.(closed := false), t.log + [Unshut])
    case Subscribe(w, _) => Trace(Subscribed(t.gate, w), t.log + [Registered(w)])
    case Unsubscribe(w, _) => Trace(Unsubscribed(t.gate, w), t.log + [Unregistered(w)])
    case Shutdown(_) => Trace(ShutDown(t.gate), t.log + [Shut(true)])
  }

  lemma AcquireKeeps(t: Trace, owner: Owner)
    requires Consistent(t) && CanAcquire(t.gate)
    ensures var g := Acquired(t.gate, owner);
            var u := Trace(g, t.log + [Admitted(g.holder.value)]);
            Consistent(u) && Extends(t, u)
  {
    var g := Acquired(t.gate, owner);
    assert Prefix(t.log + [Admitted(g.holder.value)]) == t.log;
  }

  /** A call that neither grants nor gives back keeps the rest if it keeps closure and wakes. */
  lemma PlainKeeps(t: Trace, g: Gate, e: Event)
    requires Consistent(t) && Plain(e) && g.holder == t.gate.holder && g.nextToken == t.gate.nextToken
    requires (e.Refused? ==> !CanAcquire(t.gate)) && (e.Ignored? ==> !Holds(t.gate, e.token))
    requires g.closed == (e.Shut? || (!e.Unshut? && t.gate.closed)) && NoDuplicates(g.wakes)
    requires Elements(g.wakes) == WakesAfter(e, Elements(t.gate.wakes))
    ensures Consistent(Trace(g, t.log + [e])) && Extends(t, Trace(g, t.log + [e]))
  {
    PlainExtends(t, g, e);
  }

  lemma FirstCallKeeps(t: Trace, s: Script)
    requires Consistent(t) && !s.Return? && (s.Release? ==> !Holds(t.gate, s.token))
    ensures Consistent(FirstCall(t, s)) && Extends(t, FirstCall(t, s))
  {
    var u := FirstCall(t, s);
    if s.Acquire? && CanAcquire(t.gate) {
      AcquireKeeps(t, s.owner);
    } else {
      match s {
        case Subscribe(w, _) => assert Elements(u.gate.wakes) == Elements(t.gate.wakes) + {w};
        case Unsubscribe(w, _) =>
          WithoutKeepsDistinct(t.gate.wakes, w);
          assert Elements(u.gate.wakes) == Elements(t.gate.wakes) - {w};
        case Shutdown(_) => assert Elements(u.gate.wakes) == {};
        case _ =>
      }
      PlainKeeps(t, u.gate, u.log[|t.log|]);
    }
  }

  lemma {:induction false} PerformKeeps(t: Trace, s: Script)
    requires Consistent(t)
    ensures Consistent(Perform(t, s)) && Extends(t, Perform(t, s))
    decreases s, 0
  {
    if s.Release? && Holds(t.gate, s.token) {
      var u := RunWakes(Opened(t, s.token), s.token, t.gate.wakes, s.inner);
      ReleaseKeeps(t, s.token, s.inner);
      PerformKeeps(u, s.next);
      ExtendsTrans(t, u, Perform(u, s.next));
    } else if !s.Return? {
      var u := FirstCall(t, s);
      FirstCallKeeps(t, s);
      PerformKeeps(u, s.next);
      ExtendsTrans(t, u, Perform(u, s.next));
    }
  }

  lemma {:induction false} ReleaseKeeps(t: Trace, token: nat, inner: Scripts)
    requires Consistent(t) && Holds(t.gate, token)
    ensures var u := RunWakes(Opened(t, token), token, t.gate.wakes, inner);
            && Consistent(u) && Extends(t, u)
            && token in Returned(u.log)
            && Snapshot(u.log, token) == t.gate.wakes
            && WokenBy(u.log, token) == t.gate.wakes
    decreases inner, |t.gate.wakes| + 1
  {
    var o := Opened(t, token);
    assert Prefix(o.log) == t.log;
    NotReturnedNotWoken(t.log, token);
    WakesKeep(o, token, t.gate.wakes, inner);
  }

  /** From `t` to `u` the release of `token` ran the wakes `ws`, and otherwise only
      whole releases happened. */
  ghost predicate Ran(t: Trace, u: Trace, token: nat, ws: seq<WakeId>) {
    && t.log <= u.log && t.gate.nextToken <= u.gate.nextToken
    && Returned(t.log) <= Returned(u.log)
    && WokenBy(u.log, token) == WokenBy(t.log, token) + ws
    && Snapshot(u.log, token) == Snapshot(t.log, token)
    && (forall v :: v in Returned(t.log) && v != token ==>
          WokenBy(u.log, v) == WokenBy(t.log, v) && Snapshot(u.log, v) == Snapshot(t.log, v))
    && (forall v :: v in Returned(u.log) && v !in Returned(t.log) ==>
          WokenBy(u.log, v) == Snapshot(u.log, v))
  }

  lemma RanTrans(t: Trace, u: Trace, v: Trace, token: nat, ws: seq<WakeId>, xs: seq<WakeId>)
    requires token in Returned(t.log) && Ran(t, u, token, ws) && Ran(u, v, token, xs)
    ensures Ran(t, v, token, ws + xs)
  {
    forall k | k in Returned(v.log) && k !in Returned(t.log) ensures WokenBy(v.log, k) == Snapshot(v.log, k) {
      if k in Returned(u.log) {
        assert WokenBy(v.log, k) == WokenBy(u.log, k);
      }
    }
  }

  lemma CallWake(t: Trace, token: nat, wake: WakeId)
    requires Consistent(t) && token in Returned(t.log)
    ensures var called := t.(log := t.log + [Woke(token, wake)]);
            Consistent(called) && Ran(t, called, token, [wake])
  {
    var called := t.(log := t.log + [Woke(token, wake)]);
    assert Prefix(called.log) == t.log;
  }

  lemma {:induction false} WakesKeep(t: Trace, token: nat, snapshot: seq<WakeId>, scripts: Scripts)
    requires Consistent(t) && token in Returned(t.log)
    ensures var u := RunWakes(t, token, snapshot, scripts);
            Consistent(u) && Ran(t, u, token, snapshot)
    decreases scripts, |snapshot|
  {
    if snapshot != [] {
      var called := t.(log := t.log + [Woke(token, snapshot[0])]);
      CallWake(t, token, snapshot[0]);
      var ran := if scripts.Idle? then called else Perform(called, scripts.first);
      if scripts.Wakes? {
        PerformKeeps(called, scripts.first);
      }
      assert Ran(called, ran, token, []);
      RanTrans(t, called, ran, token, [snapshot[0]], []);
      var rest := if scripts.Idle? then Idle else scripts.rest;
      WakesKeep(ran, token, snapshot[1..], rest);
      RanTrans(t, ran, RunWakes(ran, token, snapshot[1..], rest), token, [snapshot[0]] + [], snapshot[1..]);
      assert [snapshot[0]] + [] + snapshot[1..] == snapshot;
    }
  }

  // ----- what the gate promises, for every re-entrant run from a new gate -----

  /** Every release that happened ran each wake of its own snapshot exactly once,
      in order, however the wakes called back into the gate. */
  lemma EveryReleaseRunsItsSnapshot(s: Script, token: nat)
    requires token in Returned(Perform(Trace(NEW_GATE, []), s).log)
    ensures var log := Perform(Trace(NEW_GATE, []), s).log;
            WokenBy(log, token) == Snapshot(log, token) && NoDuplicates(WokenBy(log, token))
  {
    PerformKeeps(Trace(NEW_GATE, []), s);
    SnapshotDistinct(Perform(Trace(NEW_GATE, []), s).log, token);
  }

  lemma {:induction false} SnapshotDistinct(log: seq<Event>, token: nat)
    requires Legal(log)
    ensures NoDuplicates(Snapshot(log, token))
  {
    if log != [] {
      SnapshotDistinct(Prefix(log), token);
    }
  }

  /** At every moment of every run at most one lease is live. */
  lemma AtMostOneLease(s: Script, k: nat)
    requires k <= |Perform(Trace(NEW_GATE, []), s).log|
    ensures |Live(Perform(Trace(NEW_GATE, []), s).log[..k])| <= 1
  {
    PerformKeeps(Trace(NEW_GATE, []), s);
    LegalPrefix(Perform(Trace(NEW_GATE, []), s).log, k);
    LegalLive(Perform(Trace(NEW_GATE, []), s).log[..k]);
  }

  lemma {:induction false} LegalPrefix(log: seq<Event>, k: nat)
    requires Legal(log) && k <= |log|
    ensures Legal(log[..k])
  {
    if k < |log| {
      assert Prefix(log)[..k] == log[..k];
      LegalPrefix(Prefix(log), k);
    } else {
      assert log[..k] == log;
    }
  }

  lemma {:induction false} LegalLive(log: seq<Event>)
    requires Legal(log)
    ensures |Live(log)| <= 1
  {
    if log != [] {
      LegalLive(Prefix(log));
      if Last(log).Admitted? {
        assert Live(log) == {Last(log).lease.token};
      } else if Last(log).Released? {
        assert Live(log) == {};
      }
    }
  }

  /** No lease is granted between a close or a shutdown and the next reopen, whatever wakes of
      releases in between do; and only then, or while a lease is live, is one refused. */
  lemma NoGrantWhileClosed(s: Script, i: nat, j: nat)
    requires var log := Perform(Trace(NEW_GATE, []), s).log;
             i < j < |log| && log[i].Shut? && forall k :: i < k < j ==> !log[k].Unshut?
    ensures !Perform(Trace(NEW_GATE, []), s).log[j].Admitted?
  {
    var log := Perform(Trace(NEW_GATE, []), s).log;
    PerformKeeps(Trace(NEW_GATE, []), s);
    LegalPrefix(log, j + 1);
    assert Prefix(log[..j + 1]) == log[..j];
    StaysClosed(log[..j], i);
  }

  lemma {:induction false} StaysClosed(log: seq<Event>, i: nat)
    requires i < |log| && log[i].Shut? && forall k :: i < k < |log| ==> !log[k].Unshut?
    ensures ClosedIn(log)
  {
    if i < |log| - 1 {
      StaysClosed(Prefix(log), i);
    }
  }

  lemma RefusedOnlyIfClosedOrHeld(s: Script, j: nat)
    requires j < |Perform(Trace(NEW_GATE, []), s).log| && Perform(Trace(NEW_GATE, []), s).log[j].Refused?
    ensures var before := Perform(Trace(NEW_GATE, []), s).log[..j];
            || Live(before) != {}
            || exists i :: 0 <= i < j && before[i].Shut? && forall k :: i < k < j ==> !before[k].Unshut?
  {
    var log := Perform(Trace(NEW_GATE, []), s).log;
    PerformKeeps(Trace(NEW_GATE, []), s);
    LegalPrefix(log, j + 1);
    assert Prefix(log[..j + 1]) == log[..j];
    if ClosedIn(log[..j]) {
      var i := ClosedSince(log[..j]);
    }
  }

  lemma {:induction false} ClosedSince(log: seq<Event>) returns (i: nat)
    requires ClosedIn(log)
    ensures i < |log| && log[i].Shut? && forall k :: i < k < |log| ==> !log[k].Unshut?
  {
    if Last(log).Shut? {
      i := |log| - 1;
    } else {
      i := ClosedSince(Prefix(log));
    }
  }

  /** Tokens are fresh and increasing: of two grants the later has the larger token. */
  lemma TokensIncrease(s: Script, i: nat, j: nat)
    requires i < j < |Perform(Trace(NEW_GATE, []), s).log|
    requires Perform(Trace(NEW_GATE, []), s).log[i].Admitted?
    requires Perform(Trace(NEW_GATE, []), s).log[j].Admitted?
    ensures var log := Perform(Trace(NEW_GATE, []), s).log; log[i].lease.token < log[j].lease.token
  {
    var log := Perform(Trace(NEW_GATE, []), s).log;
    PerformKeeps(Trace(NEW_GATE, []), s);
    LegalPrefix(log, j + 1);
    assert Prefix(log[..j + 1]) == log[..j];
    LegalPrefix(log, j);
    GrantedIsLiveOrReturned(log[..j], i);
  }

  lemma {:induction false} GrantedIsLiveOrReturned(log: seq<Event>, i: nat)
    requires i < |log| && log[i].Admitted?
    ensures log[i].lease.token in Live(log) || log[i].lease.token in Returned(log)
  {
    if i < |log| - 1 {
      GrantedIsLiveOrReturned(Prefix(log), i);
    }
  }

  /** Once a lease has been given back, giving it back again changes nothing, now
      or after any further run: it can neither free a newer lease nor wake anyone. */
  lemma StaleReleaseIsIgnored(t: Trace, s: Script, token: nat, inner: Scripts, next: Script)
    requires Consistent(t) && token in Returned(t.log)
    ensures var u := Perform(t, s);
            Perform(u, Release(token, inner, next)) == Perform(Trace(u.gate, u.log + [Ignored(token)]), next)
  {
    PerformKeeps(t, s);
  }

  // ----- the object -----

  class BackgroundResourceGate {
    var holder: Option<Reservation>
    var nextToken: nat
    var isClosed: bool
    var wakes: seq<WakeId>
    ghost var log: seq<Event>

    ghost function State(): Gate
      reads this
    {
      Gate(holder, nextToken, isClosed, wakes)
    }

    ghost function History(): Trace
      reads this
    {
      Trace(State(), log)
    }

    constructor ()
      ensures History() == Trace(NEW_GATE, [])
    {
      holder, nextToken, isClosed, wakes, log := None, 1, false, [], [];
    }

    method TryAcquire(owner: Owner) returns (reservation: Option<Reservation>)
      modifies this
      ensures reservation.Some? <==> !old(isClosed) && old(holder).None?
      ensures reservation.Some? ==>
                && reservation.value == Reservation(owner, old(nextToken)) && holder == reservation
                && nextToken == old(nextToken) + 1 && log == old(log) + [Admitted(reservation.value)]
      ensures reservation.None? ==>
                holder == old(holder) && nextToken == old(nextToken) && log == old(log) + [Refused(owner)]
      ensures isClosed == old(isClosed) && wakes == old(wakes)
      ensures State() == if reservation.Some? then Acquired(old(State()), owner) else old(State())
    {
      if isClosed || holder.Some? {
        log := log + [Refused(owner)];
        return None;
      }
      var lease := Reservation(owner, nextToken);
      nextToken := nextToken + 1;
      holder := Some(lease);
      log := log + [Admitted(lease)];
      return Some(lease);
    }

    /** `release` before its wake loop: stale tokens free nothing and wake no one. */
    method Free(token: nat) returns (snapshot: seq<WakeId>)
      modifies this
      ensures if old(holder).Some? && old(holder).value.token == token
              then holder.None? && snapshot == old(wakes) && log == old(log) + [Event.Released(token, snapshot)]
              else holder == old(holder) && snapshot == [] && log == old(log) + [Ignored(token)]
      ensures nextToken == old(nextToken) && isClosed == old(isClosed) && wakes == old(wakes)
      ensures State() == Freed(old(State()), token)
    {
      if holder.None? || holder.value.token != token {
        log := log + [Ignored(token)];
        return [];
      }
      holder := None;
      snapshot := wakes;
      log := log + [Event.Released(token, snapshot)];
    }

    method Release(token: nat, scripts: Scripts)
      modifies this
      ensures History() == if old(Holds(State(), token))
                           then RunWakes(Opened(old(History()), token), token, old(wakes), scripts)
                           else Trace(old(State()), old(log) + [Ignored(token)])
      decreases scripts, 0, 1
    {
      var genuine := holder.Some? && holder.value.token == token;
      var snapshot := Free(token);
      if genuine {
        WakeAll(token, snapshot, scripts);
      }
    }

    method WakeAll(token: nat, snapshot: seq<WakeId>, scripts: Scripts)
      modifies this
      ensures History() == RunWakes(old(History()), token, snapshot, scripts)
      decreases scripts, 0, 0
    {
      var i, todo := 0, scripts;
      while i < |snapshot|
        invariant i <= |snapshot|
        invariant todo == scripts || todo < scripts
        invariant RunWakes(old(History()), token, snapshot, scripts)
               == RunWakes(History(), token, snapshot[i..], todo)
      {
        assert snapshot[i..][1..] == snapshot[i + 1..];
        log := log + [Woke(token, snapshot[i])];
        if todo.Wakes? {
          Run(todo.first);
          todo := todo.rest;
        }
        i := i + 1;
      }
    }

    method Close()
      modifies this`isClosed, this`log
      ensures isClosed && log == old(log) + [Shut(false)]
    {
      isClosed := true;
      log := log + [Shut(false)];
    }

    method Reopen()
      modifies this`isClosed, this`log
      ensures !isClosed && log == old(log) + [Unshut]
    {
      isClosed := false;
      log := log + [Unshut];
    }

    method OnSettled(wake: WakeId)
      modifies this`wakes, this`log
      ensures wakes == if wake in old(wakes) then old(wakes) else old(wakes) + [wake]
      ensures log == old(log) + [Registered(wake)]
    {
      if wake !in wakes {
        wakes := wakes + [wake];
      }
      log := log + [Registered(wake)];
    }

    method Unsubscribe(wake: WakeId)
      modifies this`wakes, this`log
      ensures wakes == Without(old(wakes), wake) && log == old(log) + [Unregistered(wake)]
    {
      wakes := Without(wakes, wake);
      log := log + [Unregistered(wake)];
    }

    method Shutdown()
      modifies this`isClosed, this`wakes, this`log
      ensures isClosed && wakes == [] && log == old(log) + [Shut(true)]
    {
      isClosed := true;
      wakes := [];
      log := log + [Shut(true)];
    }

    /** What one wake does to the gate. */
    method Run(script: Script)
      modifies this
      ensures History() == Perform(old(History()), script)
      decreases script, 0, 0
    {
      match script
      case Return =>
      case Acquire(owner, next) =>
        var _ := TryAcquire(owner);
        Run(next);
      case Release(token, inner, next) =>
        Release(token, inner);
        Run(next);
      case Close(next) =>
        Close();
        Run(next);
      case Reopen(next) =>
        Reopen();
        Run(next);
      case Subscribe(w, next) =>
        OnSettled(w);
        Run(next);
      case Unsubscribe(w, next) =>
        Unsubscribe(w);
        Run(next);
      case Shutdown(next) =>
        Shutdown();
        Run(next);
    }
  }
}
