/** When commands on sessions, leases, agents and execs are accepted, and what each refusal
    means. A fault is a condition that a caller could see before the call; a command is
    refused only for a fault, and is accepted when there is none. */
module OwnerVerdicts {
  import opened States
  import opened Records
  import opened Replay
  import opened Commands
  import opened Effects
  import opened TargetEffects
  import opened RetirementEffects

  /** A lease under which work may begin: active, not terminating, not yet expired. */
  predicate Serving(lease: Lease, now: Time) {
    lease.state == LeaseActive && lease.termination == NO_TERMINATION && now < lease.expiresAt
  }

  predicate HasAgent(s: State, agentId: Token, generation: nat) {
    agentId in s.agents && 1 <= generation <= |s.agents[agentId].generations|
  }

  /** The realization of an agent workspace with a number. */
  function AgentAt(s: State, agentId: Token, generation: nat): AgentGen
    requires HasAgent(s, agentId, generation)
  {
    s.agents[agentId].generations[generation - 1]
  }

  lemma AgentFound(s: State, agentId: Token, generation: nat)
    requires AgentsFiled(s) && agentId in s.agents
    ensures var gens := s.agents[agentId].generations;
            AgentGenIndex(gens, generation) == if 1 <= generation <= |gens| then generation - 1 else |gens|
  {
    var gens := s.agents[agentId].generations;
    if 1 <= generation <= |gens| { assert gens[generation - 1].identity.generation == generation; }
  }

  // ------------------------------------------------------------------ sessions and leases

  predicate AcquireFault(key: Token, owner: Token, provenance: Provenance, ttl: nat, e: Error) {
    && e.InvalidArgument?
    && (key == 0 || owner == 0 || ttl == 0
        || provenance.inputView == 0 || provenance.policy == 0 || provenance.capability == 0)
  }

  lemma AcquireIs(s: State, key: Token, owner: Token, provenance: Provenance, ttl: nat, env: Env)
    ensures var o := Acquire(s, key, owner, provenance, ttl, env);
            if o.Rejected? then AcquireFault(key, owner, provenance, ttl, o.error)
            else forall e :: !AcquireFault(key, owner, provenance, ttl, e)
  {}

  predicate RenewFault(s: State, leaseId: Token, expected: nat, ttl: nat, env: Env, e: Error) {
    var known := leaseId in s.leases;
    match e
    case InvalidArgument => ttl == 0 || (known && env.stamp + ttl <= s.leases[leaseId].expiresAt)
    case NotFound => !known
    case RevisionConflict => known && s.leases[leaseId].revision != expected
    case OutOfScope => known && !Serving(s.leases[leaseId], env.guard)
    case _ => false
  }

  lemma RenewIs(s: State, leaseId: Token, expected: nat, ttl: nat, env: Env)
    ensures var o := RenewLease(s, leaseId, expected, ttl, env);
            if o.Rejected? then RenewFault(s, leaseId, expected, ttl, env, o.error)
            else forall e :: !RenewFault(s, leaseId, expected, ttl, env, e)
  {}

  // -------------------------------------------------------------------------------- agents

  ghost predicate WorkingExec(s: State, agentId: Token, generation: nat) {
    exists id :: id in s.execs && s.execs[id].identity.agentId == agentId
                 && s.execs[id].identity.agentGeneration == generation && !ExecTerminal(s.execs[id].state)
  }

  /** The operation belongs to a run of another realization. */
  predicate Elsewhere(t: Target, o: Operation, agentId: Token, generation: nat) {
    exists r :: r in t.runs && r.id == o.identity.runId
                && !(r.identity.agentId == agentId && r.identity.agentGeneration == generation)
  }

  ghost predicate WorkingOperation(s: State, agentId: Token, generation: nat) {
    exists id, o :: id in s.targets && o in s.targets[id].operations
                    && !OperationTerminal(o.state) && !Elsewhere(s.targets[id], o, agentId, generation)
  }

  lemma OperationsDoneIs(t: Target, agentId: Token, generation: nat)
    requires DistinctRuns(t.runs)
    ensures OperationsDone(t, agentId, generation) <==>
            forall o | o in t.operations && !OperationTerminal(o.state) :: Elsewhere(t, o, agentId, generation)
  {
    forall k | 0 <= k < |t.operations|
      ensures var o := t.operations[k];
              var r := RunIndex(t.runs, o.identity.runId);
              Elsewhere(t, o, agentId, generation) <==>
              && r < |t.runs|
              && !(t.runs[r].identity.agentId == agentId && t.runs[r].identity.agentGeneration == generation)
    {
      var o := t.operations[k];
      var i := RunIndex(t.runs, o.identity.runId);
      if i < |t.runs| { assert t.runs[i] in t.runs; }
      if r :| r in t.runs && r.id == o.identity.runId {
        var j :| 0 <= j < |t.runs| && t.runs[j] == r;
        assert i == j;
      }
    }
    forall o | o in t.operations ensures exists k :: 0 <= k < |t.operations| && t.operations[k] == o {}
  }

  ghost predicate Busy(s: State, agentId: Token, generation: nat) {
    WorkingExec(s, agentId, generation) || WorkingOperation(s, agentId, generation)
  }

  lemma IdleIs(s: State, agentId: Token, generation: nat)
    requires TargetsFiled(s)
    ensures AgentIdle(s, agentId, generation) <==> !Busy(s, agentId, generation)
  {
    forall id | id in s.targets
      ensures OperationsDone(s.targets[id], agentId, generation) <==>
              forall o | o in s.targets[id].operations && !OperationTerminal(o.state) ::
                Elsewhere(s.targets[id], o, agentId, generation)
    {
      OperationsDoneIs(s.targets[id], agentId, generation);
    }
  }

  ghost predicate TransitionAgentFault(s: State, agentId: Token, generation: nat, expected: nat, state: AgentState,
      e: Error)
  {
    var known := HasAgent(s, agentId, generation);
    match e
    case NotFound => !known
    case RevisionConflict => known && AgentAt(s, agentId, generation).revision != expected
    case InvalidTransition => known && !AgentStep(AgentAt(s, agentId, generation).state, state)
    case FailedPrecondition => state.AgentQuiescing? && Busy(s, agentId, generation)
    case _ => false
  }

  lemma TransitionAgentIs(s: State, agentId: Token, generation: nat, expected: nat, state: AgentState, env: Env)
    requires AgentsFiled(s) && TargetsFiled(s)
    ensures var o := TransitionAgent(s, agentId, generation, expected, state, env);
            if o.Rejected? then TransitionAgentFault(s, agentId, generation, expected, state, o.error)
            else forall e :: !TransitionAgentFault(s, agentId, generation, expected, state, e)
  {
    if agentId in s.agents { AgentFound(s, agentId, generation); }
    IdleIs(s, agentId, generation);
    TransitionAgentGate(s, agentId, generation, expected, state, env);
  }

  lemma TransitionAgentGate(s: State, agentId: Token, generation: nat, expected: nat, state: AgentState, env: Env)
    requires AgentIdle(s, agentId, generation) <==> !Busy(s, agentId, generation)
    requires agentId in s.agents ==>
               var gens := s.agents[agentId].generations;
               AgentGenIndex(gens, generation) == if 1 <= generation <= |gens| then generation - 1 else |gens|
    ensures var o := TransitionAgent(s, agentId, generation, expected, state, env);
            if o.Rejected? then TransitionAgentFault(s, agentId, generation, expected, state, o.error)
            else forall e :: !TransitionAgentFault(s, agentId, generation, expected, state, e)
  {}

  /** The lease of the agent's session, if it serves this realization. */
  predicate ServedAgent(s: State, agentId: Token, generation: nat, now: Time)
    requires agentId in s.agents
  {
    var sessionId := s.agents[agentId].sessionId;
    && sessionId in s.sessions && s.sessions[sessionId].identity.leaseId in s.leases
    && var lease := s.leases[s.sessions[sessionId].identity.leaseId];
    lease.identity.agentId == agentId && lease.agentGeneration == generation && Serving(lease, now)
  }

  predicate BindAgentPlanFault(s: State, agentId: Token, generation: nat, expected: nat, binding: AgentBinding,
      env: Env, e: Error)
  {
    var known := agentId in s.agents;
    var current := known && HasAgent(s, agentId, generation) && generation == |s.agents[agentId].generations|;
    match e
    case InvalidArgument =>
      generation == 0 || expected == 0 || binding.plan == 0 || binding.workspaceKey == 0 || binding.agentKey == 0
    case NotFound => !known || s.agents[agentId].sessionId !in s.sessions
    case FailedPrecondition => known && (!current || !AgentAt(s, agentId, generation).state.AgentProvisioning?)
    case RevisionConflict => current && AgentAt(s, agentId, generation).revision != expected
    case IdempotencyConflict => current && AgentAt(s, agentId, generation).binding != AgentBinding(0, 0, 0)
    case OutOfScope =>
      known && s.agents[agentId].sessionId in s.sessions && !ServedAgent(s, agentId, generation, env.guard)
    case _ => false
  }

  lemma BindAgentPlanIs(s: State, agentId: Token, generation: nat, expected: nat, binding: AgentBinding, env: Env)
    requires AgentsFiled(s)
    ensures var o := BindAgentPlan(s, agentId, generation, expected, binding, env);
            if o.Rejected? then BindAgentPlanFault(s, agentId, generation, expected, binding, env, o.error)
            else forall e :: !BindAgentPlanFault(s, agentId, generation, expected, binding, env, e)
  {
    if agentId in s.agents { AgentFound(s, agentId, generation); }
  }

  // --------------------------------------------------------------------------------- execs

  /** The realization is the last one of its agent workspace, and takes work. */
  predicate Current(s: State, agentId: Token, generation: nat) {
    HasAgent(s, agentId, generation) && generation == |s.agents[agentId].generations|
  }

  predicate TakesWork(g: AgentGen) { g.state == AgentReady || g.state == AgentRunning }

  lemma AcceptingIs(s: State, agentId: Token, generation: nat)
    requires AgentsFiled(s)
    ensures match AcceptingWork(s, agentId, generation)
            case Err(e) =>
              || (e.OutOfScope? && !Current(s, agentId, generation))
              || (&& e.FailedPrecondition? && Current(s, agentId, generation)
                  && !TakesWork(AgentAt(s, agentId, generation)))
            case Ok(a) =>
              Current(s, agentId, generation) && TakesWork(AgentAt(s, agentId, generation)) && a == s.agents[agentId]
  {
    if agentId in s.agents { AgentFound(s, agentId, generation); }
  }

  predicate CreateExecFault(s: State, leaseId: Token, command: Token, env: Env, e: Error) {
    var known := leaseId in s.leases;
    match e
    case InvalidArgument => command == 0
    case NotFound => !known
    case OutOfScope =>
      known && (var l := s.leases[leaseId];
                !Serving(l, env.guard) || !Current(s, l.identity.agentId, l.agentGeneration))
    case FailedPrecondition =>
      known && (var l := s.leases[leaseId];
                && Current(s, l.identity.agentId, l.agentGeneration)
                && !TakesWork(AgentAt(s, l.identity.agentId, l.agentGeneration)))
    case _ => false
  }

  lemma CreateExecIs(s: State, leaseId: Token, command: Token, env: Env)
    requires AgentsFiled(s)
    ensures var o := CreateExec(s, leaseId, command, env);
            if o.Rejected? then CreateExecFault(s, leaseId, command, env, o.error)
            else forall e :: !CreateExecFault(s, leaseId, command, env, e)
  {
    if leaseId in s.leases { AcceptingIs(s, s.leases[leaseId].identity.agentId, s.leases[leaseId].agentGeneration); }
  }

  predicate TransitionExecFault(s: State, execId: Token, expected: nat, state: ExecState, env: Env, e: Error) {
    var known := execId in s.execs;
    match e
    case FailedPrecondition =>
      || ExecTerminal(state)
      || (known && state.ExecRunning? && (var i := s.execs[execId].identity;
          HasAgent(s, i.agentId, i.agentGeneration) && !TakesWork(AgentAt(s, i.agentId, i.agentGeneration))))
    case NotFound =>
      || !known || s.execs[execId].identity.leaseId !in s.leases
      || (state.ExecRunning? && (var i := s.execs[execId].identity; !HasAgent(s, i.agentId, i.agentGeneration)))
    case OutOfScope =>
      && known && s.execs[execId].identity.leaseId in s.leases
      && !Serving(s.leases[s.execs[execId].identity.leaseId], env.guard)
    case RevisionConflict => known && s.execs[execId].revision != expected
    case InvalidTransition => known && !ExecStep(s.execs[execId].state, state)
    case _ => false
  }

  lemma TransitionExecIs(s: State, execId: Token, expected: nat, state: ExecState, env: Env)
    requires AgentsFiled(s)
    ensures var o := TransitionExec(s, execId, expected, state, env);
            if o.Rejected? then TransitionExecFault(s, execId, expected, state, env, o.error)
            else forall e :: !TransitionExecFault(s, execId, expected, state, env, e)
  {
    if execId in s.execs && s.execs[execId].identity.agentId in s.agents {
      AgentFound(s, s.execs[execId].identity.agentId, s.execs[execId].identity.agentGeneration);
    }
  }

  /** The incident is about the exec, and about the realization it ran on. */
  predicate AboutExec(i: IncidentIdentity, x: Exec) {
    && i.sessionId == x.identity.sessionId && i.execId == x.id
    && i.agentId == x.identity.agentId && i.agentGeneration == x.identity.agentGeneration
  }

  predicate FinalizeExecFault(s: State, execId: Token, expected: nat, state: ExecState, outcome: ExecOutcome,
      incidentIds: seq<Token>, e: Error)
  {
    var known := execId in s.execs;
    match e
    case InvalidArgument =>
      || !ExecTerminal(state) || 0 in incidentIds
      || (state.ExecCompleted? && !(outcome.exitCode == Some(0) && outcome.cleanupConfirmed))
    case NotFound => !known || exists id :: id in incidentIds && id !in s.incidents
    case RevisionConflict => known && s.execs[execId].revision != expected
    case OutOfScope =>
      known && exists id :: id in incidentIds && id in s.incidents
                            && !AboutExec(s.incidents[id].identity, s.execs[execId])
    case InvalidTransition => known && !ExecStep(s.execs[execId].state, state)
    case _ => false
  }

  lemma FinalizeExecIs(s: State, execId: Token, expected: nat, state: ExecState, outcome: ExecOutcome,
      incidentIds: seq<Token>, env: Env)
    ensures var o := FinalizeExec(s, execId, expected, state, outcome, incidentIds, env);
            if o.Rejected? then FinalizeExecFault(s, execId, expected, state, outcome, incidentIds, o.error)
            else forall e :: !FinalizeExecFault(s, execId, expected, state, outcome, incidentIds, e)
  {
    forall k | 0 <= k < |incidentIds| ensures incidentIds[k] in incidentIds {}
  }
}
