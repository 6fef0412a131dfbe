/** The handlers that update a record step by step and append every revision to the
    open transaction, each writing what the model says. */
module Handlers {
  import opened States
  import opened Records
  import opened Replay
  import opened Commands
  import opened Checks

  class Transaction {
    var records: seq<Control>

    constructor ()
      ensures records == []
    {
      records := [];
    }

    method Append(body: Aggregate)
      modifies this
      ensures records == old(records) + [Entry(body)]
    {
      records := records + [Entry(body)];
    }
  }

  /** A handler has appended the records of an outcome, or has failed with its error. */
  predicate Ran(before: seq<Control>, after: seq<Control>, r: Result<()>, o: Outcome) {
    match o
    case Rejected(error) => r == Err(error)
    case Written(records) => r.Ok? && after == before + records
  }

  // ------------------------------------------------------------- retirement of a realization

  /** Moves one target generation through a list of states, appending each revision;
      stops at the first state that the table does not allow. */
  method AppendTargetTransitions(tx: Transaction, start: Target, i: nat, states: seq<TargetState>, at: Time)
    returns (ok: bool, t: Target)
    requires i < |start.generations|
    modifies tx
    ensures ok == LegalTargetPath(start.generations[i].state, states)
    ensures ok ==>
            tx.records == old(tx.records) + TargetTrail(start, i, states, at) && t == TargetAlong(start, i, states, at)
  {
    t := start;
    var k := 0;
    while k < |states|
      invariant 0 <= k <= |states| && |t.generations| == |start.generations|
      invariant LegalTargetPath(start.generations[i].state, states) ==
          LegalTargetPath(t.generations[i].state, states[k..])
      invariant TargetAlong(start, i, states, at) == TargetAlong(t, i, states[k..], at)
      invariant old(tx.records) + TargetTrail(start, i, states, at) == tx.records + TargetTrail(t, i, states[k..], at)
    {
      assert states[k..][0] == states[k] && states[k..][1..] == states[k + 1..];
      if !TargetStep(t.generations[i].state, states[k]) { return false, t; }
      ghost var from, before := t, tx.records;
      t := TargetGenMoved(t, i, states[k], at);
      tx.Append(TargetBody(t));
      assert before + TargetTrail(from, i, states[k..], at) == tx.records + TargetTrail(t, i, states[k + 1..], at);
      k := k + 1;
    }
    ok := true;
  }

  method AppendAgentTransitions(tx: Transaction, start: Agent, i: nat, states: seq<AgentState>, at: Time)
    returns (ok: bool, a: Agent)
    requires i < |start.generations|
    modifies tx
    ensures ok == LegalAgentPath(start.generations[i].state, states)
    ensures ok ==>
            tx.records == old(tx.records) + AgentTrail(start, i, states, at) && a == AgentAlong(start, i, states, at)
  {
    a := start;
    var k := 0;
    while k < |states|
      invariant 0 <= k <= |states| && |a.generations| == |start.generations|
      invariant LegalAgentPath(start.generations[i].state, states) ==
          LegalAgentPath(a.generations[i].state, states[k..])
      invariant AgentAlong(start, i, states, at) == AgentAlong(a, i, states[k..], at)
      invariant old(tx.records) + AgentTrail(start, i, states, at) == tx.records + AgentTrail(a, i, states[k..], at)
    {
      assert states[k..][0] == states[k] && states[k..][1..] == states[k + 1..];
      if !AgentStep(a.generations[i].state, states[k]) { return false, a; }
      ghost var from, before := a, tx.records;
      a := AgentGenMoved(a, i, states[k], at);
      tx.Append(AgentBody(a));
      assert before + AgentTrail(from, i, states[k..], at) == tx.records + AgentTrail(a, i, states[k + 1..], at);
      k := k + 1;
    }
    ok := true;
  }

  method FindTargetGeneration(generations: seq<TargetGen>, generation: nat) returns (i: nat)
    ensures i == TargetGenIndex(generations, generation)
  {
    i := 0;
    while i < |generations|
      invariant i <= |generations| && forall j | 0 <= j < i :: generations[j].identity.generation != generation
    {
      if generations[i].identity.generation == generation { break; }
      i := i + 1;
    }
  }

  method FindAgentGeneration(generations: seq<AgentGen>, generation: nat) returns (i: nat)
    ensures i == AgentGenIndex(generations, generation)
  {
    i := 0;
    while i < |generations|
      invariant i <= |generations| && forall j | 0 <= j < i :: generations[j].identity.generation != generation
    {
      if generations[i].identity.generation == generation { break; }
      i := i + 1;
    }
  }

  // ------------------------------------------------------------------ lease termination

  /** The first phase: the admission gate closes and the session follows its lease. */
  method BeginLeaseTermination(tx: Transaction, s: State, leaseId: Token, kind: TerminationKind, expected: nat,
      reason: Token, key: Token, digest: Token, env: Env) returns (r: Result<()>)
    modifies tx
    ensures r.Ok? == BeginTermination(s, leaseId, kind, expected, reason, key, digest, env).Ok?
    ensures r.Ok? ==>
            tx.records == old(tx.records) + BeginTermination(s, leaseId, kind, expected, reason, key, digest, env).value
    ensures r.Err? ==> BeginTermination(s, leaseId, kind, expected, reason, key, digest, env) == Err(r.error)
  {
    if leaseId !in s.leases { return Err(NotFound); }
    var lease := s.leases[leaseId];
    if kind.ExpiryKind? && env.guard < lease.expiresAt { return Err(FailedPrecondition); }
    if !lease.termination.Empty() { return Err(IdempotencyConflict); }
    if lease.revision != expected { return Err(RevisionConflict); }
    if !lease.state.LeaseActive? { return Err(FailedPrecondition); }
    if kind.ReleaseKind? && !LeaseAdmits(lease, env.guard) { return Err(OutOfScope); }
    if lease.identity.sessionId !in s.sessions { return Err(NotFound); }
    var session := s.sessions[lease.identity.sessionId];
    var state := lease.state;
    var terminationState := TerminationExpiring;
    if kind.ReleaseKind? {
      state, terminationState := LeaseReleasing, TerminationReleasing;
    }
    lease := lease.(state := state, revision := lease.revision + 1, updatedAt := env.stamp);
    lease := lease.(termination :=
        Termination(kind, terminationState, reason, key, digest, lease.revision, env.stamp, 0, 0, 0));
    tx.Append(LeaseBody(lease));
    if !SessionStep(session.state, SessionReleasing) { return Err(InvalidTransition); }
    tx.Append(SessionBody(SessionMoved(session, SessionReleasing, env.stamp)));
    r := Ok(());
  }

  method RetireLeaseTarget(tx: Transaction, t: Target, at: Time) returns (r: Result<()>)
    modifies tx
    ensures r.Ok? ==> RetireTarget(t, at).Ok? && tx.records == old(tx.records) + RetireTarget(t, at).value
    ensures r.Err? ==> r == Err(NotFound) && RetireTarget(t, at) == Err(NotFound)
  {
    var g := FindTargetGeneration(t.generations, t.current);
    if g == |t.generations| { return Err(NotFound); }
    var ok, _ := AppendTargetTransitions(tx, t, g, TargetRetirement(t.generations[g].state), at);
    r := Ok(());
  }

  /** The loop over the targets of a lease. */
  method RetireLeaseTargets(tx: Transaction, s: State, ids: seq<Token>, at: Time) returns (r: Result<()>)
    requires forall id | id in ids :: id in s.targets
    modifies tx
    ensures r.Ok? == RetireTargets(s, ids, at).Ok?
    ensures r.Ok? ==> tx.records == old(tx.records) + RetireTargets(s, ids, at).value
    ensures r.Err? ==> RetireTargets(s, ids, at) == Err(r.error)
  {
    ghost var done: seq<Control> := [];
    for k := 0 to |ids|
      invariant Retiring(s, ids, k, at, done) && tx.records == old(tx.records) + done
    {
      r := RetireLeaseTarget(tx, s.targets[ids[k]], at);
      if r.Err? {
        RetireTargetsStop(s, ids, k, at);
        return;
      }
      RetiringNext(s, ids, k, at, done);
      done := done + RetireTarget(s.targets[ids[k]], at).value;
    }
    assert ids[..|ids|] == ids;
    r := Ok(());
  }

  /** The records that retire the first so many targets of a list. */
  ghost predicate Retiring(s: State, ids: seq<Token>, k: nat, at: Time, records: seq<Control>) {
    && k <= |ids| && (forall id | id in ids :: id in s.targets)
    && (forall id | id in ids[..k] :: id in s.targets) && RetireTargets(s, ids[..k], at) == Ok(records)
  }

  lemma RetiringNext(s: State, ids: seq<Token>, k: nat, at: Time, records: seq<Control>)
    requires k < |ids| && Retiring(s, ids, k, at, records) && RetireTarget(s.targets[ids[k]], at).Ok?
    ensures Retiring(s, ids, k + 1, at, records + RetireTarget(s.targets[ids[k]], at).value)
  {
    assert ids[..k + 1][..k] == ids[..k] && ids[..k + 1][k] == ids[k];
  }

  lemma {:induction false} RetireTargetsStop(s: State, ids: seq<Token>, k: nat, at: Time)
    requires k < |ids| && forall id | id in ids :: id in s.targets
    requires RetireTargets(s, ids[..k], at).Ok? && RetireTarget(s.targets[ids[k]], at) == Err(NotFound)
    ensures RetireTargets(s, ids, at) == Err(NotFound)
    decreases |ids|
  {
    if k == |ids| - 1 {
      assert ids[..|ids| - 1] == ids[..k];
    } else {
      var front := ids[..|ids| - 1];
      assert front[..k] == ids[..k] && front[k] == ids[k];
      RetireTargetsStop(s, front, k, at);
    }
  }

  method RequireCompletable(s: State, leaseId: Token, expected: nat, key: Token, digest: Token)
      returns (r: Result<Lease>)
    ensures r == CompletionGate(s, leaseId, expected, key, digest)
  {
    if key == 0 || digest == 0 || expected == 0 { return Err(InvalidArgument); }
    if leaseId !in s.leases { return Err(NotFound); }
    var lease := s.leases[leaseId];
    if !lease.termination.InProgress() {
      return Err(if lease.termination.Terminal() then IdempotencyConflict else FailedPrecondition);
    }
    if lease.termination.completeKey != 0 || lease.termination.completeDigest != 0 { return Err(IdempotencyConflict); }
    if lease.revision != expected { return Err(RevisionConflict); }
    var finalized := LeaseWorkFinalized(s, leaseId);
    if !finalized { return Err(FailedPrecondition); }
    if lease.identity.sessionId !in s.sessions || lease.identity.agentId !in s.agents { return Err(NotFound); }
    r := Ok(lease);
  }

  method RetireLeaseAgent(tx: Transaction, a: Agent, at: Time) returns (r: Result<()>)
    modifies tx
    ensures r.Ok? == RetireAgent(a, at).Ok?
    ensures r.Ok? ==> tx.records == old(tx.records) + RetireAgent(a, at).value
    ensures r.Err? ==> RetireAgent(a, at) == Err(r.error)
  {
    var g := FindAgentGeneration(a.generations, a.current);
    if g == |a.generations| { return Err(NotFound); }
    var ok, _ := AppendAgentTransitions(tx, a, g, AgentRetirement(a.generations[g].state), at);
    r := Ok(());
  }

  method CloseLease(tx: Transaction, session: Session, lease: Lease, key: Token, digest: Token, at: Time)
      returns (ok: bool)
    modifies tx
    ensures ok == (LeaseStep(lease.state, Completed(lease, key, digest, at).state)
            && SessionStep(session.state, SessionReleased))
    ensures ok ==> tx.records == old(tx.records) + Closing(session, lease, key, digest, at)
  {
    var done := Completed(lease, key, digest, at);
    if !LeaseStep(lease.state, done.state) { return false; }
    tx.Append(LeaseBody(done));
    if !SessionStep(session.state, SessionReleased) { return false; }
    tx.Append(SessionBody(SessionMoved(session, SessionReleased, at)));
    ok := true;
  }

  lemma Concatenated(a: seq<Control>, b: seq<Control>, c: seq<Control>, d: seq<Control>)
    ensures a + b + c + d == a + (b + (c + d)) && a + b + c == a + (b + c)
  {}

  /** The second phase of a termination. On success the transaction holds exactly the
      records of the model; on failure it is rolled back by the caller. */
  method CompleteLeaseTermination(tx: Transaction, s: State, leaseId: Token, expected: nat, key: Token, digest: Token,
      env: Env)
    returns (r: Result<()>)
    modifies tx
    ensures r.Ok? == CompleteTermination(s, leaseId, expected, key, digest, env).Ok?
    ensures r.Ok? ==> tx.records == old(tx.records) + CompleteTermination(s, leaseId, expected, key, digest, env).value
    ensures r.Err? ==> CompleteTermination(s, leaseId, expected, key, digest, env) == Err(r.error)
  {
    var gate := RequireCompletable(s, leaseId, expected, key, digest);
    if gate.Err? { return Err(gate.error); }
    var lease := gate.value;
    var session := s.sessions[lease.identity.sessionId];
    var ids := TargetIdsForLease(s.targets, leaseId);
    assert ids == TargetIdsOf(s, leaseId);
    r := RetireLeaseTargets(tx, s, ids, env.stamp);
    if r.Err? { return; }
    r := RetireLeaseAgent(tx, s.agents[lease.identity.agentId], env.stamp);
    if r.Err? { return; }
    var closed := CloseLease(tx, session, lease, key, digest, env.stamp);
    if !closed { return Err(InvalidTransition); }
    ghost var targets, retired := RetireTargets(s, ids, env.stamp).value,
        RetireAgent(s.agents[lease.identity.agentId], env.stamp).value;
    Concatenated(old(tx.records), targets, retired, Closing(session, lease, key, digest, env.stamp));
  }

  // ------------------------------------------------------------------------ acquisition

  /** A new session moves through its first states, and the lease and the agent workspace
      follow, all in one transaction. */
  method AcquireSession(tx: Transaction, s: State, key: Token, owner: Token, provenance: Provenance, ttl: nat,
      env: Env) returns (ok: bool)
    modifies tx
    ensures ok == Acquire(s, key, owner, provenance, ttl, env).Written?
    ensures ok ==> tx.records == old(tx.records) + Acquire(s, key, owner, provenance, ttl, env).records
  {
    if key == 0 || owner == 0 || !CompleteProvenance(provenance) || ttl == 0 { return false; }
    var at, ids := env.stamp, env.ids;
    var session := Session(ids.session, SessionIdentity(owner, key, ids.lease, ids.agent, provenance, at),
        SessionRequested, 1, at);
    tx.Append(SessionBody(session));
    var states := [SessionAdmitted, SessionLeased];
    for k := 0 to 2
      invariant session == Session(ids.session, SessionIdentity(owner, key, ids.lease, ids.agent, provenance, at),
                                   if k == 0 then SessionRequested else states[k - 1], 1 + k, at)
      invariant tx.records == old(tx.records) + Acquire(s, key, owner, provenance, ttl, env).records[..1 + k]
    {
      assert SessionStep(session.state, states[k]);
      session := session.(state := states[k], revision := session.revision + 1);
      tx.Append(SessionBody(session));
    }
    tx.Append(LeaseBody(Lease(ids.lease, LeaseIdentity(ids.session, ids.agent, provenance, at), 1, LeaseActive,
        at + ttl, NO_TERMINATION, 1, at)));
    tx.Append(AgentBody(Agent(ids.agent, ids.session, at, 1, 1, at, [NewAgentGen(1, provenance, 0, 0, env)])));
    ok := true;
  }

  // ---------------------------------------------------------------------- running an exec

  /** The first exec to run on a ready agent generation marks it running, in the same
      transaction and before the exec's own record. */
  method TransitionExecState(tx: Transaction, s: State, execId: Token, expected: nat, state: ExecState, env: Env)
      returns (r: Result<()>)
    modifies tx
    ensures r.Ok? == TransitionExec(s, execId, expected, state, env).Written?
    ensures r.Ok? ==> tx.records == old(tx.records) + TransitionExec(s, execId, expected, state, env).records
    ensures r.Err? ==> TransitionExec(s, execId, expected, state, env) == Rejected(r.error)
  {
    if ExecTerminal(state) { return Err(FailedPrecondition); }
    if execId !in s.execs { return Err(NotFound); }
    var exec := s.execs[execId];
    if exec.identity.leaseId !in s.leases { return Err(NotFound); }
    if !LeaseAdmits(s.leases[exec.identity.leaseId], env.guard) { return Err(OutOfScope); }
    if exec.revision != expected { return Err(RevisionConflict); }
    if !ExecStep(exec.state, state) { return Err(InvalidTransition); }
    if state.ExecRunning? {
      if exec.identity.agentId !in s.agents { return Err(NotFound); }
      var agent := s.agents[exec.identity.agentId];
      var i := FindAgentGeneration(agent.generations, exec.identity.agentGeneration);
      if i == |agent.generations| { return Err(NotFound); }
      if agent.generations[i].state.AgentReady? {
        tx.Append(AgentBody(AgentGenMoved(agent, i, AgentRunning, env.stamp)));
      } else if !agent.generations[i].state.AgentRunning? {
        return Err(FailedPrecondition);
      }
    }
    exec := exec.(state := state, revision := exec.revision + 1, updatedAt := env.stamp);
    tx.Append(ExecBody(exec));
    r := Ok(());
  }

  // -------------------------------------------------------------------- finalizing a run

  method IncidentsMatch(s: State, t: Target, r: Run, incidentIds: seq<Token>) returns (found: bool, ok: bool)
    ensures found == forall k | 0 <= k < |incidentIds| :: incidentIds[k] in s.incidents
    ensures found ==> ok == forall k | 0 <= k < |incidentIds| :: RunIncidentMatches(s, t, r, incidentIds[k])
  {
    for k := 0 to |incidentIds|
      invariant forall j | 0 <= j < k :: incidentIds[j] in s.incidents
    {
      if incidentIds[k] !in s.incidents { return false, false; }
    }
    for k := 0 to |incidentIds|
      invariant forall j | 0 <= j < k :: RunIncidentMatches(s, t, r, incidentIds[j])
    {
      if !RunIncidentMatches(s, t, r, incidentIds[k]) { return true, false; }
    }
    return true, true;
  }

  /** A run that is not yet finalizing gets that revision first; the closing revision also
      makes a ready realization resettable. */
  method FinalizeTargetRun(tx: Transaction, s: State, targetId: Token, runId: Token, expected: nat, failed: bool,
      bundle: Bundle, incidentIds: seq<Token>, env: Env) returns (r: Result<()>)
    modifies tx
    ensures r.Ok? == FinalizeRun(s, targetId, runId, expected, failed, bundle, incidentIds, env).Written?
    ensures r.Ok? ==>
            tx.records == old(tx.records)
            + FinalizeRun(s, targetId, runId, expected, failed, bundle, incidentIds, env).records
    ensures r.Err? ==> FinalizeRun(s, targetId, runId, expected, failed, bundle, incidentIds, env) == Rejected(r.error)
  {
    if bundle.id == 0 || (bundle.artifact == 0) != (bundle.digest == 0)
        || 0 in incidentIds { return Err(InvalidArgument); }
    if targetId !in s.targets { return Err(NotFound); }
    var t := s.targets[targetId];
    if t.identity.leaseId !in s.leases
        || !LeaseAdmitsMutation(s.leases[t.identity.leaseId], env.guard, true) { return Err(OutOfScope); }
    var i := FindRun(t.runs, runId);
    if i == |t.runs| { return Err(NotFound); }
    if t.runs[i].revision != expected { return Err(RevisionConflict); }
    var found, matching := IncidentsMatch(s, t, t.runs[i], incidentIds);
    if !found { return Err(NotFound); }
    if !matching { return Err(OutOfScope); }
    r := EndRun(tx, t, i, failed, bundle, incidentIds, env.stamp);
  }

  method EndRun(tx: Transaction, start: Target, i: nat, failed: bool, bundle: Bundle, incidentIds: seq<Token>,
      at: Time) returns (r: Result<()>)
    requires i < |start.runs|
    modifies tx
    ensures r.Ok? == RunEnding(start, i, failed, bundle, incidentIds, at).Ok?
    ensures r.Ok? ==> tx.records == old(tx.records) + RunEnding(start, i, failed, bundle, incidentIds, at).value
    ensures r.Err? ==> RunEnding(start, i, failed, bundle, incidentIds, at) == Err(r.error)
  {
    var t := start;
    var terminal := if failed then RunFailed else RunCompleted;
    if !failed && !t.runs[i].state.RunFinalizing? {
      if !RunStep(t.runs[i].state, RunFinalizing) { return Err(InvalidTransition); }
      t := WithRun(t, i, RunMoved(t.runs[i], RunFinalizing, at), at);
      tx.Append(TargetBody(t));
    }
    if !RunStep(t.runs[i].state, terminal) { return Err(InvalidTransition); }
    tx.Append(TargetBody(RunClosed(t, i, terminal, bundle, incidentIds, at)));
    r := Ok(());
  }

  // ------------------------------------------------------------------------- quarantine

  /** Live operations of the current generation are cancelled and its live runs
      quarantined, element by element, before the generation itself. */
  method QuarantineGeneration(start: Target, i: nat, at: Time) returns (t: Target)
    requires i < |start.generations|
    ensures t == Quarantined(start, i, at)
  {
    var operations := start.operations;
    for k := 0 to |operations|
      invariant |operations| == |start.operations|
      invariant forall j | 0 <= j < k :: operations[j] == CancelledOperations(start.operations, start.current, at)[j]
      invariant forall j | k <= j < |operations| :: operations[j] == start.operations[j]
    {
      if operations[k].identity.generation == start.current && !OperationTerminal(operations[k].state) {
        operations := operations[k := OperationMoved(operations[k], OperationCancelled, at)];
      }
    }
    assert operations == CancelledOperations(start.operations, start.current, at);
    var runs := start.runs;
    for k := 0 to |runs|
      invariant |runs| == |start.runs|
      invariant forall j | 0 <= j < k :: runs[j] == QuarantinedRuns(start.runs, start.current, at)[j]
      invariant forall j | k <= j < |runs| :: runs[j] == start.runs[j]
    {
      if runs[k].identity.generation == start.current && !RunTerminal(runs[k].state) {
        runs := runs[k := RunMoved(runs[k], RunQuarantined, at)];
      }
    }
    assert runs == QuarantinedRuns(start.runs, start.current, at);
    t := TargetGenMoved(start.(operations := operations, runs := runs), i, TargetQuarantined, at);
  }

  // --------------------------------------------------------------------------- recovery

  method RecoverTargetGeneration(tx: Transaction, s: State, v: Incident, lease: Lease, env: Env) returns (r: Result<()>)
    modifies tx
    ensures r.Ok? == RecoverTarget(s, v, lease, env).Ok?
    ensures r.Ok? ==> tx.records == old(tx.records) + RecoverTarget(s, v, lease, env).value
    ensures r.Err? ==> RecoverTarget(s, v, lease, env) == Err(r.error)
  {
    var i := v.identity;
    if i.targetId == 0 || i.targetGeneration == 0 { return Err(FailedPrecondition); }
    if i.targetId !in s.targets { return Err(OutOfScope); }
    var t := s.targets[i.targetId];
    if t.identity.sessionId != i.sessionId || t.identity.leaseId != lease.id { return Err(OutOfScope); }
    if t.current != i.targetGeneration { return Err(FailedPrecondition); }
    for k := 0 to |t.runs|
      invariant forall j | 0 <= j < k ::
          t.runs[j].identity.generation == t.current ==> RunTerminal(t.runs[j].state) && t.runs[j].bundle.id != 0
    {
      if t.runs[k].identity.generation == t.current && !(RunTerminal(t.runs[k].state) && t.runs[k].bundle.id != 0) {
        return Err(FailedPrecondition);
      }
    }
    var g := FindTargetGeneration(t.generations, t.current);
    if g == |t.generations| { return Err(NotFound); }
    var ok, retired := AppendTargetTransitions(tx, t, g, TargetRetirement(t.generations[g].state), env.stamp);
    tx.Append(TargetBody(NextTargetGen(retired, g, v.id, env.stamp)));
    r := Ok(());
  }

  method RecoverAgentGeneration(tx: Transaction, s: State, v: Incident, lease: Lease, env: Env) returns (r: Result<()>)
    modifies tx
    ensures r.Ok? == RecoverAgent(s, v, lease, env).Ok?
    ensures r.Ok? ==> tx.records == old(tx.records) + RecoverAgent(s, v, lease, env).value
    ensures r.Err? ==> RecoverAgent(s, v, lease, env) == Err(r.error)
  {
    var i := v.identity;
    if i.agentId == 0 || i.agentGeneration == 0 { return Err(FailedPrecondition); }
    if i.agentId !in s.agents || s.agents[i.agentId].sessionId != i.sessionId || lease.identity.agentId != i.agentId {
      return Err(OutOfScope);
    }
    var a := s.agents[i.agentId];
    if a.current != i.agentGeneration || lease.agentGeneration != i.agentGeneration { return Err(FailedPrecondition); }
    var execs := ExecsEnded(s.execs, lease.id, a.current);
    if !execs { return Err(FailedPrecondition); }
    var runs := RunsAllBundled(s.targets, lease.id, a);
    if !runs { return Err(FailedPrecondition); }
    var g := FindAgentGeneration(a.generations, a.current);
    if g == |a.generations| { return Err(NotFound); }
    var path := AgentRetirement(a.generations[g].state);
    var ok, retired := AppendAgentTransitions(tx, a, g, path, env.stamp);
    var next := NextAgentGen(retired, g, v.id, env);
    tx.Append(AgentBody(next));
    tx.Append(LeaseBody(lease.(agentGeneration := next.current, revision := lease.revision + 1,
        updatedAt := env.stamp)));
    r := Ok(());
  }

  method ExecsEnded(execs: map<Token, Exec>, leaseId: Token, generation: nat) returns (ok: bool)
    ensures ok == forall id | id in execs ::
      execs[id].identity.leaseId == leaseId && execs[id].identity.agentGeneration == generation ==>
          ExecTerminal(execs[id].state)
  {
    var left := execs.Keys;
    while left != {}
      invariant left <= execs.Keys
      invariant forall id | id in execs && id !in left ::
        execs[id].identity.leaseId == leaseId && execs[id].identity.agentGeneration == generation ==>
            ExecTerminal(execs[id].state)
      decreases |left|
    {
      var id :| id in left;
      var e := execs[id];
      if e.identity.leaseId == leaseId && e.identity.agentGeneration == generation
          && !ExecTerminal(e.state) { return false; }
      left := left - {id};
    }
    return true;
  }

  method RunsAllBundled(targets: map<Token, Target>, leaseId: Token, a: Agent) returns (ok: bool)
    ensures ok == forall id | id in targets :: targets[id].identity.leaseId == leaseId ==> RunsBundled(targets[id], a)
  {
    var left := targets.Keys;
    while left != {}
      invariant left <= targets.Keys
      invariant forall id | id in targets && id !in left ::
          targets[id].identity.leaseId == leaseId ==> RunsBundled(targets[id], a)
      decreases |left|
    {
      var id :| id in left;
      var t := targets[id];
      if t.identity.leaseId == leaseId {
        for k := 0 to |t.runs|
          invariant forall j | 0 <= j < k ::
            t.runs[j].identity.agentId == a.id && t.runs[j].identity.agentGeneration == a.current ==>
            RunTerminal(t.runs[j].state) && t.runs[j].bundle.id != 0
        {
          if t.runs[k].identity.agentId == a.id && t.runs[k].identity.agentGeneration == a.current &&
             !(RunTerminal(t.runs[k].state) && t.runs[k].bundle.id != 0) { return false; }
        }
      }
      left := left - {id};
    }
    return true;
  }

  /** The sealed incident is recorded as recovering, then one resource is rolled over. */
  method RecoverSealedIncident(tx: Transaction, s: State, incidentId: Token, expected: nat, resource: Resource,
      strategy: Token, acknowledgement: Token, env: Env) returns (r: Result<()>)
    modifies tx
    ensures r.Ok? == RecoverIncident(s, incidentId, expected, resource, strategy, acknowledgement, env).Written?
    ensures r.Ok? ==>
            tx.records == old(tx.records)
            + RecoverIncident(s, incidentId, expected, resource, strategy, acknowledgement, env).records
    ensures r.Err? ==>
            RecoverIncident(s, incidentId, expected, resource, strategy, acknowledgement, env) == Rejected(r.error)
  {
    if strategy == 0 || acknowledgement == 0 { return Err(InvalidArgument); }
    if incidentId !in s.incidents { return Err(NotFound); }
    var incident := s.incidents[incidentId];
    if incident.revision != expected { return Err(RevisionConflict); }
    if !incident.state.IncidentEvidenceSealed? { return Err(FailedPrecondition); }
    if incident.identity.leaseId !in s.leases
        || s.leases[incident.identity.leaseId].identity.sessionId != incident.identity.sessionId {
      return Err(OutOfScope);
    }
    var lease := s.leases[incident.identity.leaseId];
    if !LeaseAdmits(lease, env.guard) { return Err(OutOfScope); }
    var begun := Recovering(incident, resource, strategy, acknowledgement, env.stamp);
    tx.Append(IncidentBody(begun));
    if resource.TargetResource? { r := RecoverTargetGeneration(tx, s, begun, lease, env); }
    else { r := RecoverAgentGeneration(tx, s, begun, lease, env); }
    if r.Ok? {
      Concatenated(old(tx.records), [Entry(IncidentBody(begun))],
                   if resource.TargetResource? then RecoverTarget(s, begun, lease, env).value
                       else RecoverAgent(s, begun, lease, env).value, []);
    }
  }

  // ------------------------------------------------------------------ agent generations

  /** A generation may quiesce only once the loops over its work have found none left. */
  method TransitionAgentState(tx: Transaction, s: State, agentId: Token, generation: nat, expected: nat,
      state: AgentState, env: Env)
    returns (r: Result<()>)
    modifies tx
    ensures r.Ok? == TransitionAgent(s, agentId, generation, expected, state, env).Written?
    ensures r.Ok? ==>
            tx.records == old(tx.records) + TransitionAgent(s, agentId, generation, expected, state, env).records
    ensures r.Err? ==> TransitionAgent(s, agentId, generation, expected, state, env) == Rejected(r.error)
  {
    if agentId !in s.agents { return Err(NotFound); }
    var agent := s.agents[agentId];
    var i := FindAgentGeneration(agent.generations, generation);
    if i == |agent.generations| { return Err(NotFound); }
    var g := agent.generations[i];
    if g.revision != expected { return Err(RevisionConflict); }
    if !AgentStep(g.state, state) { return Err(InvalidTransition); }
    if state.AgentQuiescing? {
      var idle := AgentGenerationIdle(s, agentId, generation);
      if !idle { return Err(FailedPrecondition); }
    }
    g := g.(state := state, revision := g.revision + 1, updatedAt := env.stamp);
    agent := agent.(generations := agent.generations[i := g]);
    agent := agent.(revision := agent.revision + 1, updatedAt := env.stamp);
    tx.Append(AgentBody(agent));
    r := Ok(());
  }

  // ---------------------------------------------------------------------------- sealing

  /** The artifacts with one more, unless it is there; a reference is never reused. */
  method AppendExactArtifact(existing: seq<Artifact>, desired: Artifact) returns (r: Result<seq<Artifact>>)
    ensures r == WithArtifact(existing, desired)
  {
    for i := 0 to |existing|
      invariant forall j | 0 <= j < i :: existing[j].reference != desired.reference
    {
      if existing[i].reference == desired.reference {
        assert ArtifactIndex(existing, desired.reference) == i;
        return if existing[i] == desired then Ok(existing) else Err(IntegrityViolation);
      }
    }
    return Ok(existing + [desired]);
  }

  /** One turn of the sealing loop: an incident of the run is sealed with its bundle, or
      found to be sealed with it already. */
  method SealOne(tx: Transaction, s: State, t: Target, r: Run, id: Token, bundleId: Token, artifact: Artifact, at: Time)
    returns (result: Result<()>)
    modifies tx
    ensures result.Ok? ==> SealIncident(s, t, r, id, bundleId, artifact, at).Ok?
    ensures result.Ok? ==> tx.records == old(tx.records) + SealIncident(s, t, r, id, bundleId, artifact, at).value
    ensures result.Err? ==> SealIncident(s, t, r, id, bundleId, artifact, at) == Err(result.error)
  {
    if id !in s.incidents { return Err(NotFound); }
    var incident := s.incidents[id];
    var i := incident.identity;
    if i.sessionId != t.identity.sessionId || i.leaseId != t.identity.leaseId || i.targetId != t.id
        || i.runId != r.id ||
       i.targetGeneration != r.identity.generation {
      return Err(OutOfScope);
    }
    if incident.state.IncidentEvidenceSealed? {
      var found := HasArtifact(incident.evidence.artifacts, artifact);
      if incident.evidence.bundleId != bundleId || !found { return Err(IntegrityViolation); }
      return Ok(());
    }
    if !incident.state.IncidentOpen? { return Err(FailedPrecondition); }
    if incident.evidence.bundleId != 0 && incident.evidence.bundleId != bundleId { return Err(IntegrityViolation); }
    var artifacts := AppendExactArtifact(incident.evidence.artifacts, artifact);
    if artifacts.Err? { return Err(artifacts.error); }
    incident := incident.(evidence := Evidence(bundleId, artifacts.value));
    incident := incident.(state := IncidentEvidenceSealed, revision := incident.revision + 1, updatedAt := at);
    tx.Append(IncidentBody(incident));
    result := Ok(());
  }

  method SealIncidents(tx: Transaction, s: State, t: Target, r: Run, ids: seq<Token>, bundleId: Token,
      artifact: Artifact, at: Time)
    returns (result: Result<()>)
    modifies tx
    ensures result.Ok? == SealAll(s, t, r, ids, bundleId, artifact, at).Ok?
    ensures result.Ok? ==> tx.records == old(tx.records) + SealAll(s, t, r, ids, bundleId, artifact, at).value
    ensures result.Err? ==> SealAll(s, t, r, ids, bundleId, artifact, at) == Err(result.error)
  {
    ghost var done: seq<Control> := [];
    for k := 0 to |ids|
      invariant SealAll(s, t, r, ids[..k], bundleId, artifact, at) == Ok(done)
      invariant tx.records == old(tx.records) + done
    {
      result := SealOne(tx, s, t, r, ids[k], bundleId, artifact, at);
      if result.Err? {
        SealStop(s, t, r, ids, k, bundleId, artifact, at);
        return;
      }
      SealNext(s, t, r, ids, k, bundleId, artifact, at, done);
      done := done + SealIncident(s, t, r, ids[k], bundleId, artifact, at).value;
    }
    assert ids[..|ids|] == ids;
    result := Ok(());
  }

  lemma SealNext(s: State, t: Target, r: Run, ids: seq<Token>, k: nat, bundleId: Token, artifact: Artifact, at: Time,
      records: seq<Control>)
    requires k < |ids| && SealAll(s, t, r, ids[..k], bundleId, artifact, at) == Ok(records)
    requires SealIncident(s, t, r, ids[k], bundleId, artifact, at).Ok?
    ensures SealAll(s, t, r, ids[..k + 1], bundleId, artifact, at) ==
            Ok(records + SealIncident(s, t, r, ids[k], bundleId, artifact, at).value)
  {
    assert ids[..k + 1][..k] == ids[..k];
  }

  /** The first incident that cannot be sealed decides the error. */
  lemma {:induction false} SealStop(s: State, t: Target, r: Run, ids: seq<Token>, k: nat, bundleId: Token,
      artifact: Artifact, at: Time)
    requires k < |ids| && SealAll(s, t, r, ids[..k], bundleId, artifact, at).Ok?
    requires SealIncident(s, t, r, ids[k], bundleId, artifact, at).Err?
    ensures SealAll(s, t, r, ids, bundleId, artifact, at) ==
            Err(SealIncident(s, t, r, ids[k], bundleId, artifact, at).error)
    decreases |ids|
  {
    var front := ids[..|ids| - 1];
    if k < |ids| - 1 {
      assert front[..k] == ids[..k];
      SealStop(s, t, r, front, k, bundleId, artifact, at);
    } else {
      assert front == ids[..k];
    }
  }

  // ----------------------------------------------------------------- recovery completion

  function Members(actions: seq<Action>): set<Action> { set a | a in actions }

  /** The one physical action that a list of recorded actions calls for, by a scan that
      stops at a second one. */
  method PhysicalIntent(existing: seq<Action>) returns (intent: Option<Action>, several: bool)
    ensures several == (|PhysicalCounterparts(Members(existing))| > 1)
    ensures !several ==> PhysicalCounterparts(Members(existing)) == if intent.None? then {} else {intent.value}
  {
    intent, several := None, false;
    for k := 0 to |existing|
      invariant PhysicalCounterparts(Members(existing[..k])) == if intent.None? then {} else {intent.value}
    {
      assert Members(existing[..k + 1]) == Members(existing[..k]) + {existing[k]};
      if existing[k].Intended? && existing[k].strategy != 0 {
        var candidate := Physical(existing[k].resource, existing[k].strategy);
        if intent.Some? && intent.value != candidate {
          TwoIntents(existing, k, intent.value, candidate);
          return intent, true;
        }
        intent := Some(candidate);
      }
    }
    assert existing[..|existing|] == existing;
  }

  lemma TwoIntents(existing: seq<Action>, k: nat, one: Action, other: Action)
    requires k < |existing| && existing[k].Intended? && existing[k].strategy != 0
            && other == Physical(existing[k].resource, existing[k].strategy)
    requires one in PhysicalCounterparts(Members(existing[..k])) && one != other
    ensures |PhysicalCounterparts(Members(existing))| > 1
  {
    var all := PhysicalCounterparts(Members(existing));
    assert existing[k] in existing;
    assert one in all && other in all;
    assert {one, other} + (all - {one, other}) == all;
  }

  method SealRunEvidence(tx: Transaction, s: State, targetId: Token, runId: Token, bundleId: Token, artifact: Artifact,
      incidentIds: seq<Token>, env: Env)
    returns (r: Result<()>)
    modifies tx
    ensures Ran(old(tx.records), tx.records, r,
                SealRunIncidents(s, targetId, runId, bundleId, artifact, incidentIds, env))
  {
    if bundleId == 0 || artifact.reference == 0 || artifact.digest == 0 { return Err(InvalidArgument); }
    if incidentIds == [] || 0 in incidentIds { return Err(InvalidArgument); }
    if targetId !in s.targets { return Err(NotFound); }
    var t := s.targets[targetId];
    var k := FindRun(t.runs, runId);
    if k == |t.runs| { return Err(NotFound); }
    var run := t.runs[k];
    if !RunTerminal(run.state) || run.bundle != Bundle(bundleId, artifact.reference, artifact.digest) {
      return Err(FailedPrecondition);
    }
    r := SealIncidents(tx, s, t, run, Normalized(incidentIds), bundleId, artifact, env.stamp);
  }

  method QuarantineCurrent(tx: Transaction, s: State, targetId: Token, expected: nat, evidenceTarget: Token,
      evidenceGeneration: nat, env: Env)
    returns (r: Result<()>)
    modifies tx
    ensures Ran(old(tx.records), tx.records, r,
                QuarantineTarget(s, targetId, expected, evidenceTarget, evidenceGeneration, env))
  {
    var gate := GateTarget(s, targetId, true, env);
    if gate.Err? { return Err(gate.error); }
    var t := gate.value;
    if t.revision != expected { return Err(RevisionConflict); }
    var i := FindTargetGeneration(t.generations, t.current);
    if i == |t.generations| { return Err(NotFound); }
    if evidenceTarget != t.id || evidenceGeneration != t.current { return Err(InvalidArgument); }
    if t.generations[i].state.TargetQuarantined? { return Ok(()); }
    if !TargetStep(t.generations[i].state, TargetQuarantined) { return Err(InvalidTransition); }
    var quarantined := QuarantineGeneration(t, i, env.stamp);
    tx.Append(TargetBody(quarantined));
    r := Ok(());
  }

  // ----------------------------------------------------------------------------- dispatch

  /** A handler that only computes its records appends them together. */
  method Conclude(tx: Transaction, o: Outcome) returns (r: Result<()>)
    modifies tx
    ensures Ran(old(tx.records), tx.records, r, o)
  {
    match o
    case Rejected(error) => return Err(error);
    case Written(records) =>
      tx.records := tx.records + records;
      return Ok(());
  }

  method RunOwner(tx: Transaction, s: State, c: OwnerCommand, env: Env) returns (r: Result<()>)
    modifies tx
    ensures Ran(old(tx.records), tx.records, r, HandleOwner(s, c, env))
  {
    match c
    case AcquireCommand(key, owner, provenance, ttl) =>
      var ok := AcquireSession(tx, s, key, owner, provenance, ttl, env);
      r := if ok then Ok(()) else Err(InvalidArgument);
    case TransitionAgentCommand(id, generation, expected, state) =>
      r := TransitionAgentState(tx, s, id, generation, expected, state, env);
    case _ => r := Conclude(tx, HandleOwner(s, c, env));
  }

  method RunExec(tx: Transaction, s: State, c: ExecCommand, env: Env) returns (r: Result<()>)
    modifies tx
    ensures Ran(old(tx.records), tx.records, r, HandleExec(s, c, env))
  {
    match c
    case TransitionExecCommand(id, expected, state) => r := TransitionExecState(tx, s, id, expected, state, env);
    case _ => r := Conclude(tx, HandleExec(s, c, env));
  }

  method RunTarget(tx: Transaction, s: State, c: TargetCommand, env: Env) returns (r: Result<()>)
    modifies tx
    ensures Ran(old(tx.records), tx.records, r, HandleTarget(s, c, env))
  {
    match c
    case QuarantineTargetCommand(id, expected, evidenceTarget, evidenceGeneration) =>
      r := QuarantineCurrent(tx, s, id, expected, evidenceTarget, evidenceGeneration, env);
    case _ => r := Conclude(tx, HandleTarget(s, c, env));
  }

  method RunTargetRun(tx: Transaction, s: State, c: RunCommand, env: Env) returns (r: Result<()>)
    modifies tx
    ensures Ran(old(tx.records), tx.records, r, HandleRun(s, c, env))
  {
    match c
    case FinalizeRunCommand(id, runId, expected, failed, bundle, ids) =>
      r := FinalizeTargetRun(tx, s, id, runId, expected, failed, bundle, ids, env);
    case _ => r := Conclude(tx, HandleRun(s, c, env));
  }

  method RunIncident(tx: Transaction, s: State, c: IncidentCommand, env: Env) returns (r: Result<()>)
    modifies tx
    ensures Ran(old(tx.records), tx.records, r, HandleIncident(s, c, env))
  {
    match c
    case RecoverIncidentCommand(id, expected, resource, strategy, acknowledgement) =>
      r := RecoverSealedIncident(tx, s, id, expected, resource, strategy, acknowledgement, env);
    case SealRunIncidentsCommand(id, runId, bundleId, artifact, ids) =>
      r := SealRunEvidence(tx, s, id, runId, bundleId, artifact, ids, env);
    case _ => r := Conclude(tx, HandleIncident(s, c, env));
  }

  method RunTermination(tx: Transaction, s: State, c: TerminationCommand, env: Env) returns (r: Result<()>)
    modifies tx
    ensures Ran(old(tx.records), tx.records, r, HandleTermination(s, c, env))
  {
    match c
    case BeginReleaseCommand(leaseId, expected, reason, key, digest) =>
      if reason == 0 || key == 0 || digest == 0 || expected == 0 { return Err(InvalidArgument); }
      r := BeginLeaseTermination(tx, s, leaseId, ReleaseKind, expected, reason, key, digest, env);
    case BeginExpiryCommand(leaseId, expected, key, digest) =>
      if key == 0 || digest == 0 || expected == 0 { return Err(InvalidArgument); }
      r := BeginLeaseTermination(tx, s, leaseId, ExpiryKind, expected, EXPIRY_REASON, key, digest, env);
    case CompleteReleaseCommand(leaseId, expected, reason, key, digest) =>
      if leaseId !in s.leases { return Err(NotFound); }
      var termination := s.leases[leaseId].termination;
      if !termination.kind.ReleaseKind? || termination.reason != reason { return Err(IdempotencyConflict); }
      r := CompleteLeaseTermination(tx, s, leaseId, expected, key, digest, env);
    case CompleteTerminationCommand(leaseId, expected, key, digest) =>
      r := CompleteLeaseTermination(tx, s, leaseId, expected, key, digest, env);
  }

  /** The open transaction holds what the model of the command says, or the command is
      refused with its error. */
  method RunCommand(tx: Transaction, s: State, c: Command, env: Env) returns (r: Result<()>)
    modifies tx
    ensures Ran(old(tx.records), tx.records, r, Handle(s, c, env))
  {
    match c
    case Owner(o) => r := RunOwner(tx, s, o, env);
    case OnExec(o) => r := RunExec(tx, s, o, env);
    case OnTarget(o) => r := RunTarget(tx, s, o, env);
    case OnRun(o) => r := RunTargetRun(tx, s, o, env);
    case OnIncident(o) => r := RunIncident(tx, s, o, env);
    case Terminating(o) => r := RunTermination(tx, s, o, env);
  }
}
