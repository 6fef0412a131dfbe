/** The verdict on every command: it is refused only for a fault that it has, and accepted
    exactly when it has none. */
module Verdicts {
  import opened States
  import opened Records
  import opened Replay
  import opened Commands
  import opened Invariant
  import opened Effects
  import opened TargetEffects
  import opened Outcomes
  import opened OwnerVerdicts
  import opened TargetVerdicts
  import opened IncidentVerdicts
  import opened TerminationVerdicts

  // --------------------------------------------------------------------------- all commands

  ghost predicate OwnerFault(s: State, c: OwnerCommand, env: Env, e: Error) {
    match c
    case AcquireCommand(key, owner, provenance, ttl) => AcquireFault(key, owner, provenance, ttl, e)
    case RenewCommand(leaseId, expected, ttl) => RenewFault(s, leaseId, expected, ttl, env, e)
    case TransitionAgentCommand(id, generation, expected, state) =>
      TransitionAgentFault(s, id, generation, expected, state, e)
    case BindAgentPlanCommand(id, generation, expected, binding) =>
      BindAgentPlanFault(s, id, generation, expected, binding, env, e)
  }

  ghost predicate ExecFault(s: State, c: ExecCommand, env: Env, e: Error) {
    match c
    case CreateExecCommand(leaseId, command) => CreateExecFault(s, leaseId, command, env, e)
    case TransitionExecCommand(id, expected, state) => TransitionExecFault(s, id, expected, state, env, e)
    case FinalizeExecCommand(id, expected, state, outcome, ids) =>
      FinalizeExecFault(s, id, expected, state, outcome, ids, e)
  }

  ghost predicate TargetFault(s: State, c: TargetCommand, env: Env, e: Error) {
    match c
    case CreateTargetCommand(leaseId, key, template, kind, policy, capability) =>
      CreateTargetFault(s, leaseId, key, template, kind, policy, capability, env, e)
    case TransitionTargetGenCommand(id, generation, expected, state) =>
      TransitionGenFault(s, id, generation, expected, state, env, e)
    case BindTargetPlanCommand(id, generation, expected, binding) =>
      BindGenFault(s, id, generation, expected, binding, env, e)
    case ResetTargetCommand(id, expected, _) => ResetFault(s, id, expected, env, e)
    case QuarantineTargetCommand(id, expected, target, generation) =>
      QuarantineFault(s, id, expected, target, generation, env, e)
  }

  ghost predicate RunFault(s: State, c: RunCommand, env: Env, e: Error) {
    match c
    case StartRunCommand(id, materialization) => StartRunFault(s, id, materialization, env, e)
    case BindRunPlanCommand(id, runId, expected, binding) => BindRunFault(s, id, runId, expected, binding, env, e)
    case TransitionRunCommand(id, runId, expected, state) => TransitionRunFault(s, id, runId, expected, state, env, e)
    case FinalizeRunCommand(id, runId, expected, failed, bundle, ids) =>
      FinalizeRunFault(s, id, runId, expected, failed, bundle, ids, env, e)
    case CreateOperationCommand(id, runId, description) => CreateOperationFault(s, id, runId, description, env, e)
    case TransitionOperationCommand(id, operationId, expected, state) =>
      TransitionOperationFault(s, id, operationId, expected, state, env, e)
  }

  ghost predicate IncidentFault(s: State, c: IncidentCommand, env: Env, e: Error) {
    match c
    case CreateIncidentCommand(identity, evidence) =>
      CreateIncidentFault(s, identity.(occurredAt := env.stamp), evidence, e)
    case TransitionIncidentCommand(id, expected, state, actions, acknowledgements, completion) =>
      TransitionIncidentFault(s, id, expected, state, actions, acknowledgements, completion, e)
    case RecoverIncidentCommand(id, expected, resource, strategy, acknowledgement) =>
      RecoverIncidentFault(s, id, expected, resource, strategy, acknowledgement, env, e)
    case SealRunIncidentsCommand(id, runId, bundleId, artifact, ids) =>
      SealRunFault(s, id, runId, bundleId, artifact, ids, e)
  }

  ghost predicate TerminationFault(s: State, c: TerminationCommand, env: Env, e: Error) {
    match c
    case BeginReleaseCommand(leaseId, expected, reason, key, digest) =>
      BeginReleaseFault(s, leaseId, expected, reason, key, digest, env, e)
    case BeginExpiryCommand(leaseId, expected, key, digest) =>
      BeginExpiryFault(s, leaseId, expected, key, digest, env, e)
    case CompleteReleaseCommand(leaseId, expected, reason, key, digest) =>
      CompleteReleaseFault(s, leaseId, expected, reason, key, digest, e)
    case CompleteTerminationCommand(leaseId, expected, key, digest) =>
      CompleteFault(s, leaseId, expected, key, digest, e)
  }

  /** What is wrong with a command, of which a refusal names one. */
  ghost predicate Fault(s: State, c: Command, env: Env, e: Error) {
    match c
    case Owner(c) => OwnerFault(s, c, env, e)
    case OnExec(c) => ExecFault(s, c, env, e)
    case OnTarget(c) => TargetFault(s, c, env, e)
    case OnRun(c) => RunFault(s, c, env, e)
    case OnIncident(c) => IncidentFault(s, c, env, e)
    case Terminating(c) => TerminationFault(s, c, env, e)
  }

  lemma OwnersJudged(s: State, c: OwnerCommand, env: Env)
    requires AgentsFiled(s) && TargetsFiled(s)
    ensures var o := HandleOwner(s, c, env);
            if o.Rejected? then OwnerFault(s, c, env, o.error) else forall e :: !OwnerFault(s, c, env, e)
  {
    match c
    case AcquireCommand(key, owner, provenance, ttl) => AcquireIs(s, key, owner, provenance, ttl, env);
    case RenewCommand(leaseId, expected, ttl) => RenewIs(s, leaseId, expected, ttl, env);
    case TransitionAgentCommand(id, generation, expected, state) =>
      TransitionAgentIs(s, id, generation, expected, state, env);
    case BindAgentPlanCommand(id, generation, expected, binding) =>
      BindAgentPlanIs(s, id, generation, expected, binding, env);
  }

  lemma ExecsJudged(s: State, c: ExecCommand, env: Env)
    requires AgentsFiled(s)
    ensures var o := HandleExec(s, c, env);
            if o.Rejected? then ExecFault(s, c, env, o.error) else forall e :: !ExecFault(s, c, env, e)
  {
    match c
    case CreateExecCommand(leaseId, command) => CreateExecIs(s, leaseId, command, env);
    case TransitionExecCommand(id, expected, state) => TransitionExecIs(s, id, expected, state, env);
    case FinalizeExecCommand(id, expected, state, outcome, ids) =>
      FinalizeExecIs(s, id, expected, state, outcome, ids, env);
  }

  lemma TargetsJudged(s: State, c: TargetCommand, env: Env)
    requires TargetsFiled(s)
    ensures var o := HandleTarget(s, c, env);
            if o.Rejected? then TargetFault(s, c, env, o.error) else forall e :: !TargetFault(s, c, env, e)
  {
    match c
    case CreateTargetCommand(leaseId, key, template, kind, policy, capability) =>
      CreateTargetIs(s, leaseId, key, template, kind, policy, capability, env);
    case TransitionTargetGenCommand(id, generation, expected, state) =>
      TransitionGenIs(s, id, generation, expected, state, env);
    case BindTargetPlanCommand(id, generation, expected, binding) =>
      BindGenIs(s, id, generation, expected, binding, env);
    case ResetTargetCommand(id, expected, incidentId) => ResetIs(s, id, expected, incidentId, env);
    case QuarantineTargetCommand(id, expected, target, generation) =>
      QuarantineIs(s, id, expected, target, generation, env);
  }

  lemma RunsJudged(s: State, c: RunCommand, env: Env)
    requires AgentsFiled(s) && TargetsFiled(s)
    ensures var o := HandleRun(s, c, env);
            if o.Rejected? then RunFault(s, c, env, o.error) else forall e :: !RunFault(s, c, env, e)
  {
    match c
    case StartRunCommand(id, materialization) => StartRunIs(s, id, materialization, env);
    case BindRunPlanCommand(id, runId, expected, binding) => BindRunIs(s, id, runId, expected, binding, env);
    case TransitionRunCommand(id, runId, expected, state) => TransitionRunIs(s, id, runId, expected, state, env);
    case FinalizeRunCommand(id, runId, expected, failed, bundle, ids) =>
      FinalizeRunIs(s, id, runId, expected, failed, bundle, ids, env);
    case CreateOperationCommand(id, runId, description) => CreateOperationIs(s, id, runId, description, env);
    case TransitionOperationCommand(id, operationId, expected, state) =>
      TransitionOperationIs(s, id, operationId, expected, state, env);
  }

  lemma IncidentsJudged(s: State, c: IncidentCommand, env: Env)
    requires AgentsFiled(s) && TargetsFiled(s)
    ensures var o := HandleIncident(s, c, env);
            if o.Rejected? then IncidentFault(s, c, env, o.error) else forall e :: !IncidentFault(s, c, env, e)
  {
    match c
    case CreateIncidentCommand(identity, evidence) => CreateIncidentIs(s, identity, evidence, env);
    case TransitionIncidentCommand(id, expected, state, actions, acknowledgements, completion) =>
      TransitionIncidentIs(s, id, expected, state, actions, acknowledgements, completion, env);
    case RecoverIncidentCommand(id, expected, resource, strategy, acknowledgement) =>
      RecoverIncidentIs(s, id, expected, resource, strategy, acknowledgement, env);
    case SealRunIncidentsCommand(id, runId, bundleId, artifact, ids) =>
      SealRunIs(s, id, runId, bundleId, artifact, ids, env);
  }

  lemma TerminationsJudged(s: State, c: TerminationCommand, env: Env)
    requires AgentsFiled(s) && TargetsFiled(s)
    ensures var o := HandleTermination(s, c, env);
            if o.Rejected? then TerminationFault(s, c, env, o.error) else forall e :: !TerminationFault(s, c, env, e)
  {
    match c
    case BeginReleaseCommand(leaseId, expected, reason, key, digest) =>
      BeginReleaseIs(s, leaseId, expected, reason, key, digest, env);
    case BeginExpiryCommand(leaseId, expected, key, digest) => BeginExpiryIs(s, leaseId, expected, key, digest, env);
    case CompleteReleaseCommand(leaseId, expected, reason, key, digest) =>
      CompleteReleaseIs(s, leaseId, expected, reason, key, digest, env);
    case CompleteTerminationCommand(leaseId, expected, key, digest) =>
      CompleteIs(s, leaseId, expected, key, digest, env);
  }

  /** A command is refused only for a fault that it has, and accepted exactly when it has none. */
  lemma CommandsJudged(s: State, c: Command, env: Env)
    requires AgentsFiled(s) && TargetsFiled(s)
    ensures var o := Handle(s, c, env);
            if o.Rejected? then Fault(s, c, env, o.error) else forall e :: !Fault(s, c, env, e)
  {
    match c
    case Owner(c) => OwnersJudged(s, c, env);
    case OnExec(c) => ExecsJudged(s, c, env);
    case OnTarget(c) => TargetsJudged(s, c, env);
    case OnRun(c) => RunsJudged(s, c, env);
    case OnIncident(c) => IncidentsJudged(s, c, env);
    case Terminating(c) => TerminationsJudged(s, c, env);
  }

  /** So in every projection that commands can lead to. */
  lemma VerdictIff(s: State, c: Command, env: Env)
    requires Inv(s)
    ensures Handle(s, c, env).Written? <==> forall e :: !Fault(s, c, env, e)
    ensures Handle(s, c, env).Rejected? ==> Fault(s, c, env, Handle(s, c, env).error)
  {
    InvFiled(s);
    CommandsJudged(s, c, env);
  }
}
