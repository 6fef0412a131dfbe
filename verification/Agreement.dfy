/** Write/replay agreement: from every projection that satisfies the invariant, what
    any command commits is taken by the store and accepted record by record by
    replay, and leads to such a projection again. */
module Agreement {
  import opened States
  import opened Records
  import opened Replay
  import opened Commands
  import opened Invariant
  import opened Chains
  import opened Stamps
  import opened TargetCommands
  import opened TargetGrowth
  import opened AgentCommands
  import opened ExecCommands
  import opened IncidentCommands
  import opened SealCommands
  import opened RecoveryCommands
  import opened LeaseCommands
  import opened TerminationCommands
  import opened CompletionCommands

  /** Generated identities are new. */
  ghost predicate FreshWork(s: State, ids: Ids) {
    && ids.exec != 0 && ids.target != 0 && ids.incident != 0 && ids.run != 0 && ids.operation != 0
    && ids.exec !in s.execs && ids.target !in s.targets && ids.incident !in s.incidents
    && (forall id, k | id in s.targets && 0 <= k < |s.targets[id].runs| :: s.targets[id].runs[k].id != ids.run)
    && (forall id, k | id in s.targets && 0 <= k < |s.targets[id].operations| ::
        s.targets[id].operations[k].id != ids.operation)
    && (forall id | id in s.agents :: FreshWorkspace(s.agents[id], ids.workspace))
  }

  /** A projection, and the clock and identities that a command may be given in it. */
  ghost predicate Ready(s: State, env: Env) {
    && Inv(s) && Before(s, env.stamp) && env.stamp != 0 && env.guard <= env.stamp
    && FreshOwners(s, env.ids) && FreshWork(s, env.ids)
  }

  /** A release that passes its gate is stamped, by the second reading of the clock, still
      before the expiry. */
  predicate InTime(s: State, c: Command, env: Env) {
    c.Terminating? && c.termination.BeginReleaseCommand? && c.termination.leaseId in s.leases &&
    HandleTermination(s, c.termination, env).Written? ==>
      env.stamp < s.leases[c.termination.leaseId].expiresAt
  }

  lemma RenewCommitted(s: State, leaseId: Token, expected: nat, ttl: nat, env: Env)
    requires Ready(s, env)
    ensures Agrees(s, RenewLease(s, leaseId, expected, ttl, env))
  {
    if leaseId in s.leases { LeasedOf(s, leaseId, env.stamp); }
    RenewLeaseAgrees(s, leaseId, expected, ttl, env);
  }

  lemma TransitionAgentCommitted(s: State, id: Token, generation: nat, expected: nat, state: AgentState, env: Env)
    requires Ready(s, env)
    ensures Agrees(s, TransitionAgent(s, id, generation, expected, state, env))
  {
    if id in s.agents { KeptAgent(s, id, env.stamp); }
    TransitionAgentRevises(s, id, generation, expected, state, env);
    AgentRevisionAgrees(s, TransitionAgent(s, id, generation, expected, state, env), env.stamp);
  }

  lemma BindAgentPlanCommitted(s: State, id: Token, generation: nat, expected: nat, binding: AgentBinding, env: Env)
    requires Ready(s, env)
    ensures Agrees(s, BindAgentPlan(s, id, generation, expected, binding, env))
  {
    if id in s.agents { KeptAgent(s, id, env.stamp); }
    BindAgentPlanRevises(s, id, generation, expected, binding, env);
    AgentRevisionAgrees(s, BindAgentPlan(s, id, generation, expected, binding, env), env.stamp);
  }

  lemma CreateExecCommitted(s: State, leaseId: Token, command: Token, env: Env)
    requires Ready(s, env)
    ensures Agrees(s, CreateExec(s, leaseId, command, env))
  {
    if leaseId in s.leases { HostedLease(s, leaseId); }
    CreateExecAgrees(s, leaseId, command, env);
  }

  lemma TransitionExecCommitted(s: State, id: Token, expected: nat, state: ExecState, env: Env)
    requires Ready(s, env)
    ensures Agrees(s, TransitionExec(s, id, expected, state, env))
  {
    if id in s.execs {
      SoundExecOf(s, id, env.stamp);
      KeptAgent(s, s.execs[id].identity.agentId, env.stamp);
    }
    TransitionExecAgrees(s, id, expected, state, env);
  }

  lemma FinalizeExecCommitted(s: State, id: Token, expected: nat, state: ExecState, outcome: ExecOutcome,
      incidentIds: seq<Token>, env: Env)
    requires Ready(s, env)
    ensures Agrees(s, FinalizeExec(s, id, expected, state, outcome, incidentIds, env))
  {
    if id in s.execs { SoundExecOf(s, id, env.stamp); }
    FinalizeExecAgrees(s, id, expected, state, outcome, incidentIds, env);
  }

  lemma TransitionTargetGenCommitted(s: State, id: Token, generation: nat, expected: nat, state: TargetState, env: Env)
    requires Ready(s, env)
    ensures Agrees(s, TransitionTargetGen(s, id, generation, expected, state, env))
  {
    if id in s.targets { SoundTarget(s, id, env.stamp); }
    TransitionTargetGenRevises(s, id, generation, expected, state, env);
    RevisionAgrees(s, TransitionTargetGen(s, id, generation, expected, state, env), env.stamp);
  }

  lemma BindTargetPlanCommitted(s: State, id: Token, generation: nat, expected: nat, binding: Binding, env: Env)
    requires Ready(s, env)
    ensures Agrees(s, BindTargetPlan(s, id, generation, expected, binding, env))
  {
    if id in s.targets { SoundTarget(s, id, env.stamp); }
    BindTargetPlanRevises(s, id, generation, expected, binding, env);
    RevisionAgrees(s, BindTargetPlan(s, id, generation, expected, binding, env), env.stamp);
  }

  lemma BindRunPlanCommitted(s: State, id: Token, runId: Token, expected: nat, binding: Binding, env: Env)
    requires Ready(s, env)
    ensures Agrees(s, BindRunPlan(s, id, runId, expected, binding, env))
  {
    if id in s.targets { SoundTarget(s, id, env.stamp); }
    BindRunPlanRevises(s, id, runId, expected, binding, env);
    RevisionAgrees(s, BindRunPlan(s, id, runId, expected, binding, env), env.stamp);
  }

  lemma TransitionRunCommitted(s: State, id: Token, runId: Token, expected: nat, state: RunState, env: Env)
    requires Ready(s, env)
    ensures Agrees(s, TransitionRun(s, id, runId, expected, state, env))
  {
    if id in s.targets { SoundTarget(s, id, env.stamp); }
    TransitionRunRevises(s, id, runId, expected, state, env);
    RevisionAgrees(s, TransitionRun(s, id, runId, expected, state, env), env.stamp);
  }

  lemma TransitionOperationCommitted(s: State, id: Token, operationId: Token, expected: nat, state: OperationState,
      env: Env)
    requires Ready(s, env)
    ensures Agrees(s, TransitionOperation(s, id, operationId, expected, state, env))
  {
    if id in s.targets { SoundTarget(s, id, env.stamp); }
    TransitionOperationRevises(s, id, operationId, expected, state, env);
    RevisionAgrees(s, TransitionOperation(s, id, operationId, expected, state, env), env.stamp);
  }

  lemma FinalizeRunCommitted(s: State, id: Token, runId: Token, expected: nat, failed: bool, bundle: Bundle,
      incidentIds: seq<Token>, env: Env)
    requires Ready(s, env)
    ensures Agrees(s, FinalizeRun(s, id, runId, expected, failed, bundle, incidentIds, env))
  {
    if id in s.targets { SoundTarget(s, id, env.stamp); }
    FinalizeRunAgrees(s, id, runId, expected, failed, bundle, incidentIds, env);
  }

  lemma QuarantineTargetCommitted(s: State, id: Token, expected: nat, evidenceTarget: Token, evidenceGeneration: nat,
      env: Env)
    requires Ready(s, env)
    ensures Agrees(s, QuarantineTarget(s, id, expected, evidenceTarget, evidenceGeneration, env))
  {
    if id in s.targets { SoundTarget(s, id, env.stamp); }
    QuarantineTargetAgrees(s, id, expected, evidenceTarget, evidenceGeneration, env);
  }

  lemma StartRunCommitted(s: State, id: Token, materialization: Token, env: Env)
    requires Ready(s, env)
    ensures Agrees(s, StartRun(s, id, materialization, env))
  {
    if id in s.targets { WholeTarget(s, id, env.stamp); }
    StartRunAgrees(s, id, materialization, env);
  }

  lemma CreateOperationCommitted(s: State, id: Token, runId: Token, description: Token, env: Env)
    requires Ready(s, env)
    ensures Agrees(s, CreateOperation(s, id, runId, description, env))
  {
    if id in s.targets { WholeTarget(s, id, env.stamp); }
    CreateOperationAgrees(s, id, runId, description, env);
  }

  lemma ResetTargetCommitted(s: State, id: Token, expected: nat, incidentId: Token, env: Env)
    requires Ready(s, env)
    ensures Agrees(s, ResetTarget(s, id, expected, incidentId, env))
  {
    if id in s.targets { WholeTarget(s, id, env.stamp); }
    ResetTargetAgrees(s, id, expected, incidentId, env);
  }

  lemma CreateIncidentCommitted(s: State, wanted: IncidentIdentity, evidence: Evidence, env: Env)
    requires Ready(s, env)
    ensures Agrees(s, CreateIncident(s, wanted, evidence, env))
  {
    NamedRecords(s, wanted, env.stamp);
    CreateIncidentAgrees(s, wanted, evidence, env);
  }

  lemma TransitionIncidentCommitted(s: State, id: Token, expected: nat, state: IncidentState, actions: set<Action>,
      acknowledgements: set<Token>, completion: bool, env: Env)
    requires Ready(s, env)
    ensures Agrees(s, TransitionIncident(s, id, expected, state, actions, acknowledgements, completion, env))
  {
    if id in s.incidents { SoundIncidentOf(s, id, env.stamp); }
    TransitionIncidentAgrees(s, id, expected, state, actions, acknowledgements, completion, env);
  }

  lemma RecoverIncidentCommitted(s: State, id: Token, expected: nat, resource: Resource, strategy: Token,
      acknowledgement: Token, env: Env)
    requires Ready(s, env)
    ensures Agrees(s, RecoverIncident(s, id, expected, resource, strategy, acknowledgement, env))
  {
    if id in s.incidents { SoundIncidentOf(s, id, env.stamp); }
    RecoverIncidentAgrees(s, id, expected, resource, strategy, acknowledgement, env);
  }

  lemma BeginReleaseCommitted(s: State, leaseId: Token, expected: nat, reason: Token, key: Token, digest: Token,
      env: Env)
    requires Ready(s, env)
    requires BeginRelease(s, leaseId, expected, reason, key, digest, env).Written? && leaseId in s.leases ==>
               env.stamp < s.leases[leaseId].expiresAt
    ensures Agrees(s, BeginRelease(s, leaseId, expected, reason, key, digest, env))
  {
    if BeginRelease(s, leaseId, expected, reason, key, digest, env).Written? {
      BeginReaches(s, leaseId, ReleaseKind, expected, reason, key, digest, env);
    }
  }

  lemma BeginExpiryCommitted(s: State, leaseId: Token, expected: nat, key: Token, digest: Token, env: Env)
    requires Ready(s, env)
    ensures Agrees(s, BeginExpiry(s, leaseId, expected, key, digest, env))
  {
    if BeginExpiry(s, leaseId, expected, key, digest, env).Written? {
      BeginReaches(s, leaseId, ExpiryKind, expected, EXPIRY_REASON, key, digest, env);
    }
  }

  lemma CompleteTerminationCommitted(s: State, leaseId: Token, expected: nat, key: Token, digest: Token, env: Env)
    requires Ready(s, env) && CompleteTermination(s, leaseId, expected, key, digest, env).Ok?
    ensures Agreed(s, CompleteTermination(s, leaseId, expected, key, digest, env).value)
  {
    TargetsAllSound(s, env.stamp);
    if leaseId in s.leases { LeasedOf(s, leaseId, env.stamp); }
    var u := CompleteReaches(s, leaseId, expected, key, digest, env);
    ReachedAgreed(s, CompleteTermination(s, leaseId, expected, key, digest, env).value, u);
  }

  lemma OwnersCommitted(s: State, c: OwnerCommand, env: Env)
    requires Ready(s, env)
    ensures Agrees(s, HandleOwner(s, c, env))
  {
    match c
    case AcquireCommand(key, owner, provenance, ttl) => AcquireAgrees(s, key, owner, provenance, ttl, env);
    case RenewCommand(leaseId, expected, ttl) => RenewCommitted(s, leaseId, expected, ttl, env);
    case TransitionAgentCommand(id, generation, expected, state) =>
        TransitionAgentCommitted(s, id, generation, expected, state, env);
    case BindAgentPlanCommand(id, generation, expected, binding) =>
        BindAgentPlanCommitted(s, id, generation, expected, binding, env);
  }

  lemma ExecsCommitted(s: State, c: ExecCommand, env: Env)
    requires Ready(s, env)
    ensures Agrees(s, HandleExec(s, c, env))
  {
    match c
    case CreateExecCommand(leaseId, command) => CreateExecCommitted(s, leaseId, command, env);
    case TransitionExecCommand(id, expected, state) => TransitionExecCommitted(s, id, expected, state, env);
    case FinalizeExecCommand(id, expected, state, outcome, ids) =>
        FinalizeExecCommitted(s, id, expected, state, outcome, ids, env);
  }

  lemma TargetsCommitted(s: State, c: TargetCommand, env: Env)
    requires Ready(s, env)
    ensures Agrees(s, HandleTarget(s, c, env))
  {
    match c
    case CreateTargetCommand(leaseId, key, template, kind, policy, capability) =>
      CreateTargetAgrees(s, leaseId, key, template, kind, policy, capability, env);
    case TransitionTargetGenCommand(id, generation, expected, state) =>
        TransitionTargetGenCommitted(s, id, generation, expected, state, env);
    case BindTargetPlanCommand(id, generation, expected, binding) =>
        BindTargetPlanCommitted(s, id, generation, expected, binding, env);
    case ResetTargetCommand(id, expected, incidentId) => ResetTargetCommitted(s, id, expected, incidentId, env);
    case QuarantineTargetCommand(id, expected, evidenceTarget, evidenceGeneration) =>
      QuarantineTargetCommitted(s, id, expected, evidenceTarget, evidenceGeneration, env);
  }

  lemma RunsCommitted(s: State, c: RunCommand, env: Env)
    requires Ready(s, env)
    ensures Agrees(s, HandleRun(s, c, env))
  {
    match c
    case StartRunCommand(id, materialization) => StartRunCommitted(s, id, materialization, env);
    case BindRunPlanCommand(id, runId, expected, binding) => BindRunPlanCommitted(s, id, runId, expected, binding, env);
    case TransitionRunCommand(id, runId, expected, state) => TransitionRunCommitted(s, id, runId, expected, state, env);
    case FinalizeRunCommand(id, runId, expected, failed, bundle, ids) =>
        FinalizeRunCommitted(s, id, runId, expected, failed, bundle, ids, env);
    case CreateOperationCommand(id, runId, description) => CreateOperationCommitted(s, id, runId, description, env);
    case TransitionOperationCommand(id, operationId, expected, state) =>
        TransitionOperationCommitted(s, id, operationId, expected, state, env);
  }

  lemma IncidentsCommitted(s: State, c: IncidentCommand, env: Env)
    requires Ready(s, env)
    ensures Agrees(s, HandleIncident(s, c, env))
  {
    match c
    case CreateIncidentCommand(identity, evidence) => CreateIncidentCommitted(s, identity, evidence, env);
    case TransitionIncidentCommand(id, expected, state, actions, acknowledgements, completion) =>
      TransitionIncidentCommitted(s, id, expected, state, actions, acknowledgements, completion, env);
    case RecoverIncidentCommand(id, expected, resource, strategy, acknowledgement) =>
      RecoverIncidentCommitted(s, id, expected, resource, strategy, acknowledgement, env);
    case SealRunIncidentsCommand(id, runId, bundleId, artifact, ids) =>
      SealRunIncidentsAgrees(s, id, runId, bundleId, artifact, ids, env);
  }

  lemma CompletionWrites(s: State, c: TerminationCommand, env: Env)
    requires c.CompleteReleaseCommand? || c.CompleteTerminationCommand?
    requires HandleTermination(s, c, env).Written?
    ensures CompleteTermination(s, c.leaseId, c.expected, c.key, c.digest, env) ==
            Ok(HandleTermination(s, c, env).records)
  {}

  lemma CompletionsCommitted(s: State, c: TerminationCommand, env: Env)
    requires Ready(s, env) && (c.CompleteReleaseCommand? || c.CompleteTerminationCommand?)
    ensures Agrees(s, HandleTermination(s, c, env))
  {
    if HandleTermination(s, c, env).Written? {
      CompletionWrites(s, c, env);
      CompleteTerminationCommitted(s, c.leaseId, c.expected, c.key, c.digest, env);
    }
  }

  lemma TerminationsCommitted(s: State, c: TerminationCommand, env: Env)
    requires Ready(s, env) && InTime(s, Terminating(c), env)
    ensures Agrees(s, HandleTermination(s, c, env))
  {
    match c
    case BeginReleaseCommand(leaseId, expected, reason, key, digest) =>
        BeginReleaseCommitted(s, leaseId, expected, reason, key, digest, env);
    case BeginExpiryCommand(leaseId, expected, key, digest) =>
        BeginExpiryCommitted(s, leaseId, expected, key, digest, env);
    case _ => CompletionsCommitted(s, c, env);
  }

  /** The agreement theorem, for every command. */
  lemma CommandsAgree(s: State, c: Command, env: Env)
    requires Ready(s, env) && InTime(s, c, env)
    ensures Agrees(s, Handle(s, c, env))
  {
    match c
    case Owner(c) => OwnersCommitted(s, c, env);
    case OnExec(c) => ExecsCommitted(s, c, env);
    case OnTarget(c) => TargetsCommitted(s, c, env);
    case OnRun(c) => RunsCommitted(s, c, env);
    case OnIncident(c) => IncidentsCommitted(s, c, env);
    case Terminating(c) => TerminationsCommitted(s, c, env);
  }
}
