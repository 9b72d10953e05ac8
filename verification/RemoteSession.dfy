/**
 Remote login sessions (apps/server/src/app.ts, apps/server/src/remote_session.ts): which
 requests a session token opens over a whole run of logins, requests and logouts, and
 how fast the login lockout lets passwords be guessed.

 A token stands for its SHA-256 hash, the key of its row. A write to the session store
 may fail; `saved` says whether the write of an event went through.
 */
module RemoteSession {
  import opened Options

  type Token = string

  datatype Timeouts = Timeouts(idle: int, absolute: int)

  datatype Row = Row(createdAt: int, lastSeenAt: int, expiresAt: int)

  type Rows = map<Token, Row>

  datatype Event =
    | Login(token: Token, t: int, saved: bool)
    | Request(token: Token, t: int, saved: bool)
    | Logout(token: Token, t: int, saved: bool)

  // ----- one event -----

  predicate Stale(cfg: Timeouts, row: Row, t: int) {
    t >= row.expiresAt || t - row.lastSeenAt > cfg.idle
  }

  predicate Accepts(cfg: Timeouts, rows: Rows, token: Token, t: int) {
    token in rows && !Stale(cfg, rows[token], t)
  }

  function After(cfg: Timeouts, rows: Rows, e: Event): Rows {
    if !e.saved then rows
    else match e
      case Login(k, t, _) =>
        // the hash is the primary key: a second row for it is refused
        if k in rows then rows else rows[k := Row(t, t, t + cfg.absolute)]
      case Request(k, t, _) =>
        if k !in rows then rows
        else if Stale(cfg, rows[k], t) then rows - {k}
        else rows[k := rows[k].(lastSeenAt := t)]
      case Logout(k, _, _) => rows - {k}
  }

  function Run(cfg: Timeouts, events: seq<Event>): Rows
    decreases |events|
  {
    if events == [] then map[]
    else After(cfg, Run(cfg, events[..|events| - 1]), events[|events| - 1])
  }

  // ----- what a session should allow, read off the history -----

  ghost predicate Timely(events: seq<Event>) {
    forall i, j :: 0 <= i < j < |events| ==> events[i].t <= events[j].t
  }

  ghost predicate Reliable(events: seq<Event>) {
    forall i :: 0 <= i < |events| ==> events[i].saved
  }

  predicate Opens(e: Event, k: Token) {
    e.Login? && e.token == k && e.saved
  }

  /** A request of the session; unless `all`, only one whose write was saved. */
  predicate Uses(e: Event, k: Token, all: bool) {
    e.Request? && e.token == k && (all || e.saved)
  }

  predicate Closes(e: Event, k: Token) {
    e.Logout? && e.token == k && e.saved
  }

  /** Tokens are issued once. */
  ghost predicate IssuedOnce(events: seq<Event>) {
    forall i, j :: 0 <= i < j < |events| && events[i].Login? && events[j].Login? ==> events[i].token != events[j].token
  }

  ghost predicate NotClosed(events: seq<Event>, i: nat, k: Token) {
    forall j :: i < j < |events| ==> !Closes(events[j], k)
  }

  /** The time of the last use of the session opened at `i`, the login included. */
  function LastUse(events: seq<Event>, i: nat, k: Token, all: bool): int
    requires i < |events|
    decreases |events|
  {
    var last := |events| - 1;
    if i == last || Uses(events[last], k, all) then events[last].t else LastUse(events[..last], i, k, all)
  }

  /** Every use since the login came before the absolute expiry and at most the idle
      time after the use before it. */
  ghost predicate Prompt(cfg: Timeouts, events: seq<Event>, i: nat, k: Token, all: bool)
    requires i < |events|
  {
    forall j :: i < j < |events| && Uses(events[j], k, all) ==>
                  events[j].t < events[i].t + cfg.absolute && events[j].t - LastUse(events[..j], i, k, all) <= cfg.idle
  }

  /** The session opened at `i` is good for a request at time `t`. */
  ghost predicate Good(cfg: Timeouts, events: seq<Event>, i: nat, k: Token, t: int, all: bool)
    requires i < |events|
  {
    && Opens(events[i], k) && NotClosed(events, i, k) && Prompt(cfg, events, i, k, all)
    && t < events[i].t + cfg.absolute && t - LastUse(events, i, k, all) <= cfg.idle
  }

  // ----- the row of a session -----

  /** The row of the session opened at `i` is there exactly while the session was not closed
      and its saved uses were prompt, and it records the last of them. */
  ghost predicate RowExact(cfg: Timeouts, events: seq<Event>, i: nat, k: Token)
    requires i < |events|
  {
    var rows := Run(cfg, events);
    && (k in rows <==> NotClosed(events, i, k) && Prompt(cfg, events, i, k, false))
    && (k in rows ==>
          && rows[k].expiresAt == events[i].t + cfg.absolute
          && rows[k].lastSeenAt == LastUse(events, i, k, false))
  }

  lemma {:induction false} NeverOpened(cfg: Timeouts, events: seq<Event>, k: Token)
    requires forall j :: 0 <= j < |events| ==> !Opens(events[j], k)
    ensures k !in Run(cfg, events)
    decreases |events|
  {
    if events != [] {
      NeverOpened(cfg, events[..|events| - 1], k);
    }
  }

  lemma PromptLast(cfg: Timeouts, events: seq<Event>, i: nat, k: Token, all: bool)
    requires i < |events| - 1
    ensures var last := |events| - 1;
            Prompt(cfg, events, i, k, all) <==>
            && Prompt(cfg, events[..last], i, k, all)
            && (Uses(events[last], k, all) ==>
                  && events[last].t < events[i].t + cfg.absolute
                  && events[last].t - LastUse(events[..last], i, k, all) <= cfg.idle)
  {
    var last := |events| - 1;
    assert forall j :: 0 <= j < last ==> events[..last][..j] == events[..j];
  }

  lemma NotClosedLast(events: seq<Event>, i: nat, k: Token)
    requires i < |events| - 1
    ensures var last := |events| - 1;
            NotClosed(events, i, k) <==> NotClosed(events[..last], i, k) && !Closes(events[last], k)
  {
    var last := |events| - 1;
    assert forall j :: 0 <= j < last ==> events[..last][j] == events[j];
  }

  lemma {:induction false} RowsExact(cfg: Timeouts, events: seq<Event>, i: nat, k: Token)
    requires IssuedOnce(events) && i < |events| && Opens(events[i], k)
    ensures RowExact(cfg, events, i, k)
    decreases |events|
  {
    var last := |events| - 1;
    if i == last {
      NeverOpened(cfg, events[..last], k);
    } else {
      RowsExact(cfg, events[..last], i, k);
      PromptLast(cfg, events, i, k, false);
      NotClosedLast(events, i, k);
    }
  }

  // ----- the main results -----

  /** For every run, whatever writes fail and whatever the clock does: a request is accepted
      exactly when its session was opened, no logout of it was saved, the absolute time has
      not passed, and no two saved uses in a row, this request included, lie more than the
      idle time apart. */
  lemma AcceptedIffGood(cfg: Timeouts, events: seq<Event>, k: Token, t: int)
    requires IssuedOnce(events)
    ensures Accepts(cfg, Run(cfg, events), k, t) <==>
            exists i :: 0 <= i < |events| && Good(cfg, events, i, k, t, false)
  {
    if i :| 0 <= i < |events| && Opens(events[i], k) {
      RowsExact(cfg, events, i, k);
      forall j | 0 <= j < |events| && Good(cfg, events, j, k, t, false) ensures i == j {
      }
      assert Accepts(cfg, Run(cfg, events), k, t) <==> Good(cfg, events, i, k, t, false);
    } else {
      NeverOpened(cfg, events, k);
    }
  }

  /** With a store that saves every write, that is every use of the session. */
  lemma AcceptedIffGoodReliably(cfg: Timeouts, events: seq<Event>, k: Token, t: int)
    requires IssuedOnce(events) && Reliable(events)
    ensures Accepts(cfg, Run(cfg, events), k, t) <==>
            exists i :: 0 <= i < |events| && Good(cfg, events, i, k, t, true)
  {
    AcceptedIffGood(cfg, events, k, t);
    forall i | 0 <= i < |events| ensures Good(cfg, events, i, k, t, true) <==> Good(cfg, events, i, k, t, false) {
      AllSaved(cfg, events, i, k);
    }
  }

  lemma AllSaved(cfg: Timeouts, events: seq<Event>, i: nat, k: Token)
    requires Reliable(events) && i < |events|
    ensures LastUse(events, i, k, true) == LastUse(events, i, k, false)
    ensures Prompt(cfg, events, i, k, true) <==> Prompt(cfg, events, i, k, false)
    decreases |events|
  {
    forall j | i < j <= |events| ensures LastUse(events[..j], i, k, true) == LastUse(events[..j], i, k, false) {
      LastUseSaved(events[..j], i, k);
    }
    assert events[..|events|] == events;
  }

  lemma {:induction false} LastUseSaved(events: seq<Event>, i: nat, k: Token)
    requires Reliable(events) && i < |events|
    ensures LastUse(events, i, k, true) == LastUse(events, i, k, false)
    decreases |events|
  {
    if i < |events| - 1 {
      LastUseSaved(events[..|events| - 1], i, k);
    }
  }

  /** When time does not run backwards, failing writes to a row only shorten its session:
      whatever is accepted is good with every use counted, saved or not. */
  lemma AcceptedIsGood(cfg: Timeouts, events: seq<Event>, k: Token, t: int)
    requires Timely(events) && IssuedOnce(events)
    requires forall j :: 0 <= j < |events| ==> events[j].t <= t
    requires Accepts(cfg, Run(cfg, events), k, t)
    ensures exists i :: 0 <= i < |events| && Good(cfg, events, i, k, t, true)
  {
    AcceptedIffGood(cfg, events, k, t);
    var i :| 0 <= i < |events| && Good(cfg, events, i, k, t, false);
    UnsavedUsesArePrompt(cfg, events, i, k, t);
    LastUseIsPast(events, i, k);
    assert Good(cfg, events, i, k, t, true);
  }

  lemma {:induction false} UnsavedUsesArePrompt(cfg: Timeouts, events: seq<Event>, i: nat, k: Token, t: int)
    requires Timely(events) && i < |events| && forall j :: 0 <= j < |events| ==> events[j].t <= t
    requires Prompt(cfg, events, i, k, false)
    requires t < events[i].t + cfg.absolute && t - LastUse(events, i, k, false) <= cfg.idle
    ensures Prompt(cfg, events, i, k, true)
    decreases |events|
  {
    var last := |events| - 1;
    if i < last {
      var before, e := events[..last], events[last];
      PromptLast(cfg, events, i, k, false);
      PromptLast(cfg, events, i, k, true);
      LastUseIsPast(before, i, k);
      assert LastUse(events, i, k, false) == if Uses(e, k, false) then e.t else LastUse(before, i, k, false);
      UnsavedUsesArePrompt(cfg, before, i, k, e.t);
    }
  }

  lemma {:induction false} LastUseIsPast(events: seq<Event>, i: nat, k: Token)
    requires i < |events| && Timely(events)
    ensures LastUse(events, i, k, false) <= LastUse(events, i, k, true) <= events[|events| - 1].t
    decreases |events|
  {
    var last := |events| - 1;
    if i < last {
      LastUseIsPast(events[..last], i, k);
    }
  }

  /** A logout ends the session exactly when its write is saved; one whose write fails, though
      answered with success, changes nothing. */
  lemma LogoutEndsWhenSaved(cfg: Timeouts, events: seq<Event>, k: Token, t: int, saved: bool, u: int)
    ensures Accepts(cfg, Run(cfg, events + [Logout(k, t, saved)]), k, u) <==>
            !saved && Accepts(cfg, Run(cfg, events), k, u)
  {
    var all := events + [Logout(k, t, saved)];
    assert all[..|all| - 1] == events;
  }

  function RunFrom(cfg: Timeouts, rows: Rows, events: seq<Event>): Rows
    decreases |events|
  {
    if events == [] then rows else RunFrom(cfg, After(cfg, rows, events[0]), events[1..])
  }

  lemma {:induction false} RunInParts(cfg: Timeouts, a: seq<Event>, b: seq<Event>)
    ensures Run(cfg, a + b) == RunFrom(cfg, Run(cfg, a), b)
    decreases |b|
  {
    if b == [] {
      assert a + b == a;
    } else {
      assert (a + [b[0]])[..|a|] == a && (a + [b[0]])[|a|] == b[0];
      assert a + b == (a + [b[0]]) + b[1..];
      RunInParts(cfg, a + [b[0]], b[1..]);
    }
  }

  lemma {:induction false} StaysRejected(cfg: Timeouts, rows: Rows, k: Token, now: int, later: seq<Event>)
    requires !Accepts(cfg, rows, k, now)
    requires forall e :: e in later ==> e.t >= now && !Opens(e, k)
    ensures forall t :: t >= now ==> !Accepts(cfg, RunFrom(cfg, rows, later), k, t)
    decreases |later|
  {
    if later != [] {
      assert later[0] in later;
      StaysRejected(cfg, After(cfg, rows, later[0]), k, now, later[1..]);
    }
  }

  /** Once rejected, never accepted again, whatever writes fail: not even when deleting the
      expired row failed. */
  lemma RejectionIsFinal(cfg: Timeouts, events: seq<Event>, k: Token, now: int, saved: bool, later: seq<Event>, t: int)
    requires !Accepts(cfg, Run(cfg, events), k, now)
    requires forall e :: e in later ==> e.t >= now && !Opens(e, k)
    requires t >= now
    ensures !Accepts(cfg, Run(cfg, events + ([Request(k, now, saved)] + later)), k, t)
  {
    RunInParts(cfg, events, [Request(k, now, saved)] + later);
    StaysRejected(cfg, Run(cfg, events), k, now, [Request(k, now, saved)] + later);
  }

  /** Such a session exists: opened, logged out without the delete being saved, and accepted. */
  lemma FailedLogoutLeavesTheSession()
    ensures var cfg := Timeouts(10, 100);
            Accepts(cfg, Run(cfg, [Login("a", 0, true)] + [Logout("a", 1, false)]), "a", 2)
  {
    var cfg, events := Timeouts(10, 100), [Login("a", 0, true)];
    LogoutEndsWhenSaved(cfg, events, "a", 1, false, 2);
    assert Run(cfg, events[..0]) == map[];
  }

  // ----- the handlers -----

  /** The session rows and the routes that write them. */
  class Sessions {
    const cfg: Timeouts
    var rows: Rows

    constructor (cfg: Timeouts)
      ensures this.cfg == cfg && rows == Run(cfg, [])
    {
      this.cfg, rows := cfg, map[];
    }

    /** The end of a successful login; `works` is false when the insert throws anyway. */
    method Create(token: Token, now: int, works: bool) returns (ok: bool)
      modifies this
      ensures rows == After(cfg, old(rows), Login(token, now, works))
      ensures ok == (works && token !in old(rows))
    {
      ok := works && token !in rows;
      if ok {
        rows := rows[token := Row(now, now, now + cfg.absolute)];
      }
    }

    method HasValidSession(token: Option<Token>, now: int, works: bool) returns (valid: bool)
      modifies this
      ensures valid == (token.Some? && Accepts(cfg, old(rows), token.value, now))
      ensures rows == if token.None? then old(rows) else After(cfg, old(rows), Request(token.value, now, works))
    {
      if token.None? || token.value !in rows {
        return false;
      }
      var row := rows[token.value];
      if now >= row.expiresAt || now - row.lastSeenAt > cfg.idle {
        if works {
          rows := rows - {token.value};
        }
        return false;
      }
      if works {
        rows := rows[token.value := row.(lastSeenAt := now)];
      }
      return true;
    }

    method LogOut(token: Option<Token>, now: int, works: bool)
      modifies this
      ensures rows == if token.None? then old(rows) else After(cfg, old(rows), Logout(token.value, now, works))
    {
      if token.Some? && works {
        rows := rows - {token.value};
      }
    }
  }

  // ----- the login lockout -----

  datatype Lockout = Lockout(failures: nat, lockedUntil: int)

  datatype Limits = Limits(maxFailures: int, lockoutMs: int)

  /** A login attempt that reached the limiter.  `saved` tells whether the write its outcome
      takes went through; if not, the route fails and the limiter stays as it was. */
  datatype Attempt = Attempt(t: int, correct: bool, saved: bool)

  predicate Checked(l: Lockout, a: Attempt) {
    a.t >= l.lockedUntil
  }

  function Tried(lim: Limits, l: Lockout, a: Attempt): Lockout {
    if !Checked(l, a) || !a.saved then l
    else if a.correct then Lockout(0, 0)
    else Failed(lim, l, a.t)
  }

  /** One more failure: a lockout in force stays, a count that is full becomes a lockout. */
  function Failed(lim: Limits, l: Lockout, now: int): Lockout {
    if l.failures + 1 >= lim.maxFailures then Lockout(0, now + lim.lockoutMs)
    else Lockout(l.failures + 1, if now < l.lockedUntil then l.lockedUntil else 0)
  }

  function TriedAll(lim: Limits, l: Lockout, attempts: seq<Attempt>): Lockout
    decreases |attempts|
  {
    if attempts == [] then l
    else Tried(lim, TriedAll(lim, l, attempts[..|attempts| - 1]), attempts[|attempts| - 1])
  }

  /** How many of the attempts had their password looked at, or, unless `all`, looked at and
      the outcome recorded. */
  function Guesses(lim: Limits, l: Lockout, attempts: seq<Attempt>, all: bool): nat
    decreases |attempts|
  {
    if attempts == [] then 0
    else
      var before, a := attempts[..|attempts| - 1], attempts[|attempts| - 1];
      Guesses(lim, l, before, all) + if Checked(TriedAll(lim, l, before), a) && (all || a.saved) then 1 else 0
  }

  ghost predicate AllWrong(attempts: seq<Attempt>) {
    forall i :: 0 <= i < |attempts| ==> !attempts[i].correct
  }

  ghost predicate InOrder(attempts: seq<Attempt>) {
    forall i, j :: 0 <= i < j < |attempts| ==> attempts[i].t <= attempts[j].t
  }

  lemma {:induction false} CounterBelowMax(lim: Limits, attempts: seq<Attempt>)
    requires lim.maxFailures >= 1
    ensures TriedAll(lim, Lockout(0, 0), attempts).failures < lim.maxFailures
    decreases |attempts|
  {
    if attempts != [] {
      CounterBelowMax(lim, attempts[..|attempts| - 1]);
    }
  }

  lemma {:induction false} LockoutProgress(lim: Limits, l: Lockout, attempts: seq<Attempt>)
    requires l.failures < lim.maxFailures && lim.lockoutMs >= 0
    requires attempts != [] && AllWrong(attempts) && InOrder(attempts)
    ensures var tried, n := TriedAll(lim, l, attempts), l.failures + Guesses(lim, l, attempts, false);
            var unlocks := attempts[0].t + lim.lockoutMs;
            || (n < lim.maxFailures && tried.failures == n)
            || (n == lim.maxFailures && tried.lockedUntil >= unlocks)
            || attempts[|attempts| - 1].t >= unlocks
    decreases |attempts|
  {
    var before := attempts[..|attempts| - 1];
    if before == [] {
      assert TriedAll(lim, l, before) == l && Guesses(lim, l, before, false) == 0;
    } else {
      LockoutProgress(lim, l, before);
    }
  }

  /** In any stretch of a run in which no password is right, more recorded guesses than the
      limit allows take at least the lockout time. */
  lemma LockoutSlowsGuessing(lim: Limits, earlier: seq<Attempt>, attempts: seq<Attempt>)
    requires lim.maxFailures >= 1 && lim.lockoutMs >= 0
    requires attempts != [] && AllWrong(attempts) && InOrder(attempts)
    requires Guesses(lim, TriedAll(lim, Lockout(0, 0), earlier), attempts, false) > lim.maxFailures
    ensures attempts[|attempts| - 1].t - attempts[0].t >= lim.lockoutMs
  {
    CounterBelowMax(lim, earlier);
    LockoutProgress(lim, TriedAll(lim, Lockout(0, 0), earlier), attempts);
  }

  ghost predicate AllSavedAttempts(attempts: seq<Attempt>) {
    forall i :: 0 <= i < |attempts| ==> attempts[i].saved
  }

  /** With a store that saves every write, those are all guesses. */
  lemma {:induction false} EveryGuessRecorded(lim: Limits, l: Lockout, attempts: seq<Attempt>)
    requires AllSavedAttempts(attempts)
    ensures Guesses(lim, l, attempts, true) == Guesses(lim, l, attempts, false)
    decreases |attempts|
  {
    if attempts != [] {
      EveryGuessRecorded(lim, l, attempts[..|attempts| - 1]);
    }
  }

  /** Guesses whose failure cannot be recorded are not slowed at all: while no lockout is in
      force any number of them has its password looked at and leaves the limiter alone. */
  lemma {:induction false} UnrecordedGuessesAreFree(lim: Limits, l: Lockout, attempts: seq<Attempt>)
    requires forall i :: 0 <= i < |attempts| ==> !attempts[i].saved && Checked(l, attempts[i])
    ensures TriedAll(lim, l, attempts) == l && Guesses(lim, l, attempts, true) == |attempts|
    decreases |attempts|
  {
    if attempts != [] {
      UnrecordedGuessesAreFree(lim, l, attempts[..|attempts| - 1]);
    }
  }

  // ----- the lockout read off the history -----

  /** Of the guesses whose outcome was recorded: how many wrong ones there were since the last
      right one, and when the last of these was. */
  datatype Tally = Tally(wrong: nat, last: int)

  function Limit(lim: Limits): nat {
    if lim.maxFailures < 1 then 1 else lim.maxFailures
  }

  /** What is left of `n` when `m` is taken away as often as it goes. */
  function Left(n: nat, m: nat): nat
    requires m > 0
  {
    if n < m then n else Left(n - m, m)
  }

  /** Every time the wrong guesses come to a multiple of the limit, the login is locked for the
      lockout time from the last of them. */
  function LockedBefore(lim: Limits, h: Tally): int {
    if h.wrong > 0 && Left(h.wrong, Limit(lim)) == 0 then h.last + lim.lockoutMs else 0
  }

  function TallyOf(lim: Limits, attempts: seq<Attempt>): Tally
    decreases |attempts|
  {
    if attempts == [] then Tally(0, 0)
    else
      var h, a := TallyOf(lim, attempts[..|attempts| - 1]), attempts[|attempts| - 1];
      if a.t < LockedBefore(lim, h) || !a.saved then h
      else if a.correct then Tally(0, 0)
      else Tally(h.wrong + 1, a.t)
  }

  lemma {:induction false} NextLeft(n: nat, m: nat)
    requires m > 0
    ensures Left(n, m) < m && Left(n + 1, m) == if Left(n, m) + 1 == m then 0 else Left(n, m) + 1
  {
    if n >= m {
      NextLeft(n - m, m);
    }
  }

  /** Over every run of a new limiter: the count is the wrong guesses recorded since the last right
      one, less the full limits; so a right password clears it.  A password goes unlooked-at
      exactly if these wrong guesses have just come to a multiple of the limit and the lockout
      time has not passed since the last of them. */
  lemma {:induction false} LockoutExact(lim: Limits, attempts: seq<Attempt>)
    ensures var h := TallyOf(lim, attempts);
            TriedAll(lim, Lockout(0, 0), attempts) == Lockout(Left(h.wrong, Limit(lim)), LockedBefore(lim, h))
    decreases |attempts|
  {
    if attempts != [] {
      var before, a := attempts[..|attempts| - 1], attempts[|attempts| - 1];
      LockoutExact(lim, before);
      NextLeft(TallyOf(lim, before).wrong, Limit(lim));
    }
  }

  /** The right password, once recorded, leaves nothing of the failures before it. */
  lemma RightPasswordClears(lim: Limits, attempts: seq<Attempt>, right: Attempt, later: seq<Attempt>)
    requires right.correct && right.saved && Checked(TriedAll(lim, Lockout(0, 0), attempts), right)
    ensures TriedAll(lim, Lockout(0, 0), attempts + [right] + later) == TriedAll(lim, Lockout(0, 0), later)
    decreases |later|
  {
    var all := attempts + [right] + later;
    if later == [] {
      assert all[..|all| - 1] == attempts;
    } else {
      RightPasswordClears(lim, attempts, right, later[..|later| - 1]);
      assert all[..|all| - 1] == attempts + [right] + later[..|later| - 1];
    }
  }

  /** No one is locked out without the limit's number of wrong guesses: while fewer were recorded
      since the last right one, every password is looked at. */
  lemma FewGuessesNeverLock(lim: Limits, attempts: seq<Attempt>, a: Attempt)
    requires TallyOf(lim, attempts).wrong < Limit(lim) && a.t >= 0
    ensures Checked(TriedAll(lim, Lockout(0, 0), attempts), a)
  {
    LockoutExact(lim, attempts);
  }

  /** The single stored row of the limiter. */
  class Limiter {
    const lim: Limits
    var failures: nat
    var lockedUntil: int

    ghost function Value(): Lockout
      reads this
    {
      Lockout(failures, lockedUntil)
    }

    constructor (lim: Limits)
      ensures this.lim == lim && Value() == Lockout(0, 0)
    {
      this.lim, failures, lockedUntil := lim, 0, 0;
    }

    method RecordFailure(now: int) returns (locks: bool)
      modifies this
      ensures locks == (old(failures) + 1 >= lim.maxFailures)
      ensures Value() == Failed(lim, old(Value()), now)
    {
      failures := failures + 1;
      if failures >= lim.maxFailures {
        failures, lockedUntil := 0, now + lim.lockoutMs;
        return true;
      }
      lockedUntil := if now < lockedUntil then lockedUntil else 0;
      return false;
    }

    method Reset()
      modifies this
      ensures Value() == Lockout(0, 0)
    {
      failures, lockedUntil := 0, 0;
    }

    /** The part of the login route that consults the limiter and the password; `works` is
        false when the limiter's write throws. */
    method Login(now: int, correct: bool, works: bool) returns (checked: bool)
      modifies this
      ensures checked == Checked(old(Value()), Attempt(now, correct, works))
      ensures Value() == Tried(lim, old(Value()), Attempt(now, correct, works))
    {
      if now < lockedUntil {
        return false;
      }
      if works {
        if correct {
          Reset();
        } else {
          var _ := RecordFailure(now);
        }
      }
      return true;
    }
  }
}
