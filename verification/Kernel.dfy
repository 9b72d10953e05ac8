/**
 What the auto-dispatch service reads from the kernel repository, and the one fence
 it evaluates over it (apps/server/src/autodispatch_service.ts:263-355).
 */
module Kernel {
  import opened Options

  type RunId = string
  type SessionId = string
  type TurnId = string
  type PolicyId = string

  datatype Operation = Investigate | Implement

  datatype Expiry = Never | Unparsable | At(ms: int)

  datatype Policy = Policy(id: PolicyId, version: nat, active: bool, expiry: Expiry, operations: set<Operation>)

  datatype Control = Control(version: nat, paused: bool)

  datatype RunRow = RunRow(completed: bool, session: SessionId, turn: TurnId)

  datatype Intent = Intent(latestRun: RunId, latestTurn: TurnId, entries: seq<string>)

  /** Tables whose read may throw at a given moment. */
  datatype Table = ShadowBlocks | Runs | Selections | Intents | Policies | Controls

  /** The repository together with the clock.  `listing` is the result, in order,
      of the bounded policy query of a session. */
  datatype Repo = Repo(
    shadowBlock: bool,
    runSession: map<RunId, SessionId>,
    runs: map<RunId, RunRow>,
    selections: map<TurnId, RunId>,
    intents: map<SessionId, Intent>,
    policies: map<PolicyId, Policy>,
    listing: map<SessionId, seq<PolicyId>>,
    control: Control,
    unreadable: set<Table>,
    now: int)

  function FirstActive(policies: map<PolicyId, Policy>, ids: seq<PolicyId>): (r: Option<Policy>)
    ensures r.Some? ==> r.value in policies.Values && r.value.active
    ensures r.Some? ==> exists id :: id in policies && policies[id] == r.value
  {
    if ids == [] then None
    else if ids[0] in policies && policies[ids[0]].active then Some(policies[ids[0]])
    else FirstActive(policies, ids[1..])
  }

  function ActivePolicy(k: Repo, session: SessionId): Option<Policy> {
    if session in k.listing then FirstActive(k.policies, k.listing[session]) else None
  }

  /** `policy` is the first active one of the session's listing, at index `i`. */
  predicate FirstListed(k: Repo, session: SessionId, policy: Policy, i: nat) {
    && session in k.listing && i < |k.listing[session]|
    && ListedActive(k, session, i) && k.policies[k.listing[session][i]] == policy
    && forall j :: 0 <= j < i ==> !ListedActive(k, session, j)
  }

  predicate ListedActive(k: Repo, session: SessionId, i: nat)
    requires session in k.listing && i < |k.listing[session]|
  {
    var id := k.listing[session][i];
    id in k.policies && k.policies[id].active
  }

  lemma {:induction false} FirstActiveIs(policies: map<PolicyId, Policy>, ids: seq<PolicyId>, i: nat)
    requires i < |ids| && ids[i] in policies && policies[ids[i]].active
    requires forall j :: 0 <= j < i ==> !(ids[j] in policies && policies[ids[j]].active)
    ensures FirstActive(policies, ids) == Some(policies[ids[i]])
  {
    if i > 0 {
      FirstActiveIs(policies, ids[1..], i - 1);
    }
  }

  lemma {:induction false} FirstActiveAt(policies: map<PolicyId, Policy>, ids: seq<PolicyId>) returns (i: nat)
    requires FirstActive(policies, ids).Some?
    ensures i < |ids| && ids[i] in policies && policies[ids[i]].active
    ensures FirstActive(policies, ids) == Some(policies[ids[i]])
    ensures forall j :: 0 <= j < i ==> !(ids[j] in policies && policies[ids[j]].active)
  {
    if ids[0] in policies && policies[ids[0]].active {
      i := 0;
    } else {
      var k := FirstActiveAt(policies, ids[1..]);
      i := k + 1;
      forall j | 0 <= j < i ensures !(ids[j] in policies && policies[ids[j]].active) {
        assert j > 0 ==> ids[j] == ids[1..][j - 1];
      }
    }
  }

  /** The policy a session runs under is the first active one of its listing. */
  lemma ActivePolicyIsFirst(k: Repo, session: SessionId, policy: Policy)
    ensures ActivePolicy(k, session) == Some(policy) <==> exists i: nat :: FirstListed(k, session, policy, i)
  {
    if i: nat :| FirstListed(k, session, policy, i) {
      var ids := k.listing[session];
      forall j | 0 <= j < i ensures !(ids[j] in k.policies && k.policies[ids[j]].active) {
        assert !ListedActive(k, session, j);
      }
      FirstActiveIs(k.policies, k.listing[session], i);
    }
    if ActivePolicy(k, session) == Some(policy) {
      var i := FirstActiveAt(k.policies, k.listing[session]);
      assert FirstListed(k, session, policy, i);
    }
  }

  /** Policies are stored under their own id. */
  ghost predicate Keyed(k: Repo) {
    forall id :: id in k.policies ==> k.policies[id].id == id
  }

  /** The intent captured at notification.  `born` is the step of the notification;
      the service never reads it. */
  datatype Pending = Pending(runId: RunId, session: SessionId, entries: seq<string>,
                             latestTurn: TurnId, latestRun: RunId,
                             policyId: PolicyId, policyVersion: nat, controlVersion: nat,
                             born: nat)

  /** `onRunCompleted` up to the capture; None when it returns without one. */
  function Capture(k: Repo, run: RunId, born: nat): Option<Pending> {
    if run !in k.runSession || Intents in k.unreadable || k.runSession[run] !in k.intents then None
    else
      var session := k.runSession[run];
      var intent := k.intents[session];
      if intent.latestRun != run || Policies in k.unreadable then None
      else
        match ActivePolicy(k, session)
        case None => None
        case Some(policy) =>
          if Controls in k.unreadable then None
          else Some(Pending(run, session, intent.entries, intent.latestTurn, intent.latestRun,
                            policy.id, policy.version, k.control.version, born))
  }

  /** A completed run is captured exactly if the three tables can be read, its session's intent
      is for this run, and an active policy is listed; what is captured is that intent with the
      first active policy's id and version and the version of the control record. */
  lemma CaptureExact(k: Repo, run: RunId, born: nat, p: Pending)
    ensures Capture(k, run, born) == Some(p) <==>
            && Intents !in k.unreadable && Policies !in k.unreadable && Controls !in k.unreadable
            && run in k.runSession && k.runSession[run] in k.intents
            && var session := k.runSession[run];
               var intent := k.intents[session];
               && intent.latestRun == run
               && p.runId == run && p.session == session && p.entries == intent.entries
               && p.latestTurn == intent.latestTurn && p.latestRun == run && p.born == born
               && p.controlVersion == k.control.version
               && exists policy, i: nat :: FirstListed(k, session, policy, i)
                                      && p.policyId == policy.id && p.policyVersion == policy.version
  {
    if run in k.runSession {
      var session := k.runSession[run];
      if policy, i: nat :| FirstListed(k, session, policy, i) {
        ActivePolicyIsFirst(k, session, policy);
        assert ActivePolicy(k, session) == Some(policy);
      }
      if ActivePolicy(k, session).Some? {
        ActivePolicyIsFirst(k, session, ActivePolicy(k, session).value);
      }
      forall policy, i: nat | FirstListed(k, session, policy, i) ensures ActivePolicy(k, session) == Some(policy) {
        ActivePolicyIsFirst(k, session, policy);
      }
    }
  }

  predicate Unexpired(policy: Policy, now: int) {
    match policy.expiry
    case Never => true
    case Unparsable => false
    case At(ms) => ms > now
  }

  /** The repository part of `readCurrentIntake`: the policy the intent may still
      run under, or None. */
  function CurrentPolicy(k: Repo, p: Pending): (r: Option<Policy>)
    ensures r.Some? ==> r.value.active && r.value.id == p.policyId && r.value.version == p.policyVersion
  {
    if ShadowBlocks in k.unreadable || k.shadowBlock then None
    else if p.runId !in k.runSession || k.runSession[p.runId] != p.session then None
    else if Runs in k.unreadable || p.latestRun !in k.runs then None
    else
      var run := k.runs[p.latestRun];
      if !run.completed || run.session != p.session || run.turn != p.latestTurn then None
      else if Selections in k.unreadable || p.latestTurn !in k.selections then None
      else if k.selections[p.latestTurn] != p.latestRun then None
      else if Intents in k.unreadable || p.session !in k.intents then None
      else
        var intent := k.intents[p.session];
        if intent.latestRun != p.latestRun || intent.latestTurn != p.latestTurn then None
        else if Policies in k.unreadable then None
        else
          match ActivePolicy(k, p.session)
          case None => None
          case Some(policy) =>
            if policy.id != p.policyId || policy.version != p.policyVersion then None
            else if !Unexpired(policy, k.now) then None
            else if Controls in k.unreadable then None
            else if k.control.version != p.controlVersion || k.control.paused then None
            else Some(policy)
  }

  /** Everything an intent depends on still stands as it was captured, under this policy. */
  ghost predicate Stands(k: Repo, p: Pending, policy: Policy) {
    && k.unreadable == {} && !k.shadowBlock
    && p.runId in k.runSession && k.runSession[p.runId] == p.session
    && p.latestRun in k.runs && k.runs[p.latestRun] == RunRow(true, p.session, p.latestTurn)
    && p.latestTurn in k.selections && k.selections[p.latestTurn] == p.latestRun
    && p.session in k.intents
    && k.intents[p.session].latestRun == p.latestRun && k.intents[p.session].latestTurn == p.latestTurn
    && k.control == Control(p.controlVersion, false)
    && (exists i: nat :: FirstListed(k, p.session, policy, i))
    && policy.id == p.policyId && policy.version == p.policyVersion
    && (policy.expiry.Never? || (policy.expiry.At? && policy.expiry.ms > k.now))
  }

  /** The fence passes exactly when all of it stands and every table can be read. */
  lemma FenceExact(k: Repo, p: Pending, policy: Policy)
    ensures CurrentPolicy(k, p) == Some(policy) <==> Stands(k, p, policy)
  {
    ActivePolicyIsFirst(k, p.session, policy);
    if CurrentPolicy(k, p).Some? {
      AllReadable(k, p);
    }
  }

  lemma AllReadable(k: Repo, p: Pending)
    requires CurrentPolicy(k, p).Some?
    ensures k.unreadable == {}
  {
    forall t: Table ensures t !in k.unreadable {
      match t
      case ShadowBlocks => case Runs => case Selections => case Intents => case Policies => case Controls =>
    }
  }

  /** An active policy listed before the captured one makes the fence fail. */
  lemma NewerPolicyFails(k: Repo, p: Pending, i: nat)
    requires p.session in k.listing && i < |k.listing[p.session]| && ListedActive(k, p.session, i)
    requires forall j :: 0 <= j <= i && ListedActive(k, p.session, j) ==>
                           k.policies[k.listing[p.session][j]].id != p.policyId
    ensures CurrentPolicy(k, p).None?
  {
    if CurrentPolicy(k, p).Some? {
      FenceExact(k, p, CurrentPolicy(k, p).value);
    }
  }

  // ----- how the repository evolves -----

  /** A policy changes only with a larger version, except that it may stop being
      active (revoked or expired), which is final for that version. */
  predicate PolicyEvolves(before: Policy, after: Policy) {
    after == before || after == before.(active := false) || after.version > before.version
  }

  /** Every control change takes a larger version. */
  predicate ControlEvolves(before: Control, after: Control) {
    after == before || after.version > before.version
  }

  ghost predicate Evolves(a: Repo, b: Repo) {
    && ControlEvolves(a.control, b.control)
    && (forall id :: id in a.policies ==> id in b.policies && PolicyEvolves(a.policies[id], b.policies[id]))
    && (Keyed(a) ==> Keyed(b))
  }

  /** What may happen to the repository: a policy is edited under a larger version, revoked or
      expires; a new one is added, listed anywhere; the control record is paused or resumed under
      a larger version; everything else changes freely. */
  lemma WorldMayChange(k: Repo, id: PolicyId, edited: Policy, control: Control, other: Repo)
    requires id in k.policies && control.version > k.control.version
    requires edited.version > k.policies[id].version && edited.id == id
    ensures Evolves(k, k.(policies := k.policies[id := edited]))
    ensures Evolves(k, k.(policies := k.policies[id := k.policies[id].(active := false)]))
    ensures forall added: Policy :: added.id !in k.policies ==>
              Evolves(k, k.(policies := k.policies[added.id := added]))
    ensures Evolves(k, k.(control := control))
    ensures Evolves(k, other.(policies := k.policies, control := k.control))
  {
  }

  lemma EvolvesTransitive(a: Repo, b: Repo, c: Repo)
    requires Evolves(a, b) && Evolves(b, c)
    ensures Evolves(a, c)
  {
    forall id | id in a.policies ensures id in c.policies && PolicyEvolves(a.policies[id], c.policies[id]) {
      assert id in b.policies;
    }
  }

  /** The authority an intent was captured under still stands, unchanged. */
  ghost predicate SameAuthority(a: Repo, b: Repo, policy: PolicyId) {
    && b.control == a.control && !b.control.paused
    && policy in a.policies && policy in b.policies
    && b.policies[policy] == a.policies[policy] && b.policies[policy].active
  }

  /** Versions make the two end points speak for the whole interval: an intent that
      passes the fence at `last` was under one unchanged, unpaused authority at every
      moment since its capture at `first`. */
  lemma FenceSpansInterval(first: Repo, mid: Repo, last: Repo, p: Pending)
    requires Keyed(first) && Evolves(first, mid) && Evolves(mid, last)
    requires Capture(first, p.runId, p.born) == Some(p)
    requires CurrentPolicy(last, p).Some?
    ensures SameAuthority(first, mid, p.policyId)
  {
    var captured := ActivePolicy(first, p.session).value;
    var current := ActivePolicy(last, p.session).value;
    assert captured.id == p.policyId && first.policies[p.policyId] == captured;
    assert Keyed(last);
    assert current.id == p.policyId && last.policies[p.policyId] == current;
    assert PolicyEvolves(captured, mid.policies[p.policyId]);
    assert PolicyEvolves(mid.policies[p.policyId], current);
  }

  /** Read again over the same data, the fence depends on the clock only through the expiry,
      and on every table being readable. */
  lemma FenceRereads(k: Repo, p: Pending, now: int, unreadable: set<Table>)
    requires CurrentPolicy(k, p).Some?
    ensures CurrentPolicy(k.(now := now, unreadable := unreadable), p) ==
            if Unexpired(CurrentPolicy(k, p).value, now) && unreadable == {} then CurrentPolicy(k, p) else None
  {
    var l := k.(now := now, unreadable := unreadable);
    assert ActivePolicy(l, p.session) == ActivePolicy(k, p.session);
    AllReadable(k, p);
    if CurrentPolicy(l, p).Some? {
      AllReadable(l, p);
    }
  }
}
