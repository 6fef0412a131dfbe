/** What every command does to the projection, as one theorem over runs: a command that
    is refused changes nothing, and one that is committed has exactly its effect. */
module Outcomes {
  import opened States
  import opened Records
  import opened Replay
  import opened Commands
  import opened Invariant
  import opened Chains
  import opened Agreement
  import opened Lifecycle
  import opened Effects
  import opened TargetEffects
  import opened TransactionEffects
  import opened RetirementEffects

  ghost predicate DoesOwner(s: State, c: OwnerCommand, env: Env, t: State) {
    match c
    case AcquireCommand(key, owner, provenance, ttl) => Acquires(s, t, key, owner, provenance, ttl, env)
    case RenewCommand(leaseId, _, ttl) => Renews(s, t, leaseId, ttl, env)
    case TransitionAgentCommand(id, generation, _, state) => MovesAgent(s, t, id, generation, state, env)
    case BindAgentPlanCommand(id, generation, _, binding) => BindsAgent(s, t, id, generation, binding, env)
  }

  ghost predicate DoesExec(s: State, c: ExecCommand, env: Env, t: State) {
    match c
    case CreateExecCommand(leaseId, command) => CreatesExec(s, t, leaseId, command, env)
    case TransitionExecCommand(id, _, state) => MovesExec(s, t, id, state, env)
    case FinalizeExecCommand(id, _, state, outcome, ids) => EndsExec(s, t, id, state, outcome, ids, env)
  }

  ghost predicate DoesTarget(s: State, c: TargetCommand, env: Env, t: State) {
    match c
    case CreateTargetCommand(leaseId, key, template, kind, policy, capability) =>
        CreatesTarget(s, t, leaseId, key, template, kind, policy, capability, env)
    case TransitionTargetGenCommand(id, generation, _, state) => MovesGen(s, t, id, generation, state, env)
    case BindTargetPlanCommand(id, generation, _, binding) => BindsGen(s, t, id, generation, binding, env)
    case ResetTargetCommand(id, _, incidentId) => Resets(s, t, id, incidentId, env)
    case QuarantineTargetCommand(id, _, _, _) => Quarantines(s, t, id, env)
  }

  ghost predicate DoesRun(s: State, c: RunCommand, env: Env, t: State) {
    match c
    case StartRunCommand(id, materialization) => StartsRun(s, t, id, materialization, env)
    case BindRunPlanCommand(id, runId, _, binding) => BindsRun(s, t, id, runId, binding, env)
    case TransitionRunCommand(id, runId, _, state) => MovesRun(s, t, id, runId, state, env)
    case FinalizeRunCommand(id, runId, _, failed, bundle, ids) => EndsRun(s, t, id, runId, failed, bundle, ids, env)
    case CreateOperationCommand(id, runId, description) => CreatesOperation(s, t, id, runId, description, env)
    case TransitionOperationCommand(id, operationId, _, state) => MovesOperation(s, t, id, operationId, state, env)
  }

  ghost predicate DoesIncident(s: State, c: IncidentCommand, env: Env, t: State) {
    match c
    case CreateIncidentCommand(identity, evidence) => CreatesIncident(s, t, identity, evidence, env)
    case TransitionIncidentCommand(id, _, state, actions, acknowledgements, completion) =>
      MovesIncident(s, t, id, state, actions, acknowledgements, completion, env)
    case RecoverIncidentCommand(id, _, resource, strategy, acknowledgement) =>
        Recovers(s, t, id, resource, strategy, acknowledgement, env)
    case SealRunIncidentsCommand(id, runId, bundleId, artifact, ids) =>
        SealsRun(s, t, id, runId, ids, bundleId, artifact, env)
  }

  ghost predicate DoesTermination(s: State, c: TerminationCommand, env: Env, t: State) {
    match c
    case BeginReleaseCommand(leaseId, _, reason, key, digest) =>
        Begins(s, t, leaseId, ReleaseKind, reason, key, digest, env)
    case BeginExpiryCommand(leaseId, _, key, digest) =>
        Begins(s, t, leaseId, ExpiryKind, EXPIRY_REASON, key, digest, env)
    case CompleteReleaseCommand(leaseId, _, _, key, digest) => Completes(s, t, leaseId, key, digest, env)
    case CompleteTerminationCommand(leaseId, _, key, digest) => Completes(s, t, leaseId, key, digest, env)
  }

  /** The effect of a command. */
  ghost predicate Does(s: State, c: Command, env: Env, t: State) {
    match c
    case Owner(c) => DoesOwner(s, c, env, t)
    case OnExec(c) => DoesExec(s, c, env, t)
    case OnTarget(c) => DoesTarget(s, c, env, t)
    case OnRun(c) => DoesRun(s, c, env, t)
    case OnIncident(c) => DoesIncident(s, c, env, t)
    case Terminating(c) => DoesTermination(s, c, env, t)
  }

  /** Everything is filed under its own identity, and realizations are numbered. */
  ghost predicate Filed(s: State) {
    SessionsFiled(s) && LeasesFiled(s) && AgentsFiled(s) && ExecsFiled(s) && TargetsFiled(s) && IncidentsFiled(s)
  }

  lemma OwnersAreFiled(s: State)
    requires SessionsInv(s) && LeasesInv(s) && AgentsInv(s)
    ensures SessionsFiled(s) && LeasesFiled(s) && AgentsFiled(s)
  {
    forall id | id in s.sessions ensures s.sessions[id].id == id { assert SessionInv(s, id); }
    forall id | id in s.leases ensures s.leases[id].id == id { assert LeaseInv(s, id); }
    forall id | id in s.agents ensures s.agents[id].id == id && AgentNumbered(s.agents[id]) { assert AgentInv(s, id); }
  }

  lemma WorkIsFiled(s: State)
    requires ExecsInv(s) && TargetsInv(s) && IncidentsInv(s)
    ensures ExecsFiled(s) && TargetsFiled(s) && IncidentsFiled(s)
  {
    forall id | id in s.execs ensures s.execs[id].id == id { assert ExecInv(s, id); }
    forall id | id in s.targets ensures s.targets[id].id == id && Numbered(s.targets[id]) { assert TargetInv(s, id); }
    forall id | id in s.incidents ensures s.incidents[id].id == id { assert IncidentInv(s, id); }
  }

  lemma InvFiled(s: State)
    requires Inv(s)
    ensures Filed(s)
  {
    OwnersAreFiled(s);
    WorkIsFiled(s);
  }

  lemma OwnersDo(s: State, c: OwnerCommand, env: Env)
    requires Filed(s) && HandleOwner(s, c, env).Written?
    ensures DoesOwner(s, c, env, Folded(s, HandleOwner(s, c, env).records))
  {
    match c
    case AcquireCommand(key, owner, provenance, ttl) => AcquireDoes(s, key, owner, provenance, ttl, env);
    case RenewCommand(leaseId, expected, ttl) => RenewLeaseDoes(s, leaseId, expected, ttl, env);
    case TransitionAgentCommand(id, generation, expected, state) =>
        TransitionAgentDoes(s, id, generation, expected, state, env);
    case BindAgentPlanCommand(id, generation, expected, binding) =>
        BindAgentPlanDoes(s, id, generation, expected, binding, env);
  }

  lemma ExecsDo(s: State, c: ExecCommand, env: Env)
    requires Filed(s) && HandleExec(s, c, env).Written?
    ensures DoesExec(s, c, env, Folded(s, HandleExec(s, c, env).records))
  {
    match c
    case CreateExecCommand(leaseId, command) => CreateExecDoes(s, leaseId, command, env);
    case TransitionExecCommand(id, expected, state) => TransitionExecDoes(s, id, expected, state, env);
    case FinalizeExecCommand(id, expected, state, outcome, ids) =>
        FinalizeExecDoes(s, id, expected, state, outcome, ids, env);
  }

  lemma TargetsDo(s: State, c: TargetCommand, env: Env)
    requires Filed(s) && HandleTarget(s, c, env).Written?
    ensures DoesTarget(s, c, env, Folded(s, HandleTarget(s, c, env).records))
  {
    match c
    case CreateTargetCommand(leaseId, key, template, kind, policy, capability) =>
      CreateTargetDoes(s, leaseId, key, template, kind, policy, capability, env);
    case TransitionTargetGenCommand(id, generation, expected, state) =>
        TransitionTargetGenDoes(s, id, generation, expected, state, env);
    case BindTargetPlanCommand(id, generation, expected, binding) =>
        BindTargetPlanDoes(s, id, generation, expected, binding, env);
    case ResetTargetCommand(id, expected, incidentId) => ResetTargetDoes(s, id, expected, incidentId, env);
    case QuarantineTargetCommand(id, expected, target, generation) =>
        QuarantineTargetDoes(s, id, expected, target, generation, env);
  }

  lemma RunsDo(s: State, c: RunCommand, env: Env)
    requires Filed(s) && HandleRun(s, c, env).Written?
    ensures DoesRun(s, c, env, Folded(s, HandleRun(s, c, env).records))
  {
    match c
    case StartRunCommand(id, materialization) => StartRunDoes(s, id, materialization, env);
    case BindRunPlanCommand(id, runId, expected, binding) => BindRunPlanDoes(s, id, runId, expected, binding, env);
    case TransitionRunCommand(id, runId, expected, state) => TransitionRunDoes(s, id, runId, expected, state, env);
    case FinalizeRunCommand(id, runId, expected, failed, bundle, ids) =>
        FinalizeRunDoes(s, id, runId, expected, failed, bundle, ids, env);
    case CreateOperationCommand(id, runId, description) => CreateOperationDoes(s, id, runId, description, env);
    case TransitionOperationCommand(id, operationId, expected, state) =>
        TransitionOperationDoes(s, id, operationId, expected, state, env);
  }

  lemma IncidentsDo(s: State, c: IncidentCommand, env: Env)
    requires Filed(s) && HandleIncident(s, c, env).Written?
    ensures DoesIncident(s, c, env, Folded(s, HandleIncident(s, c, env).records))
  {
    match c
    case CreateIncidentCommand(identity, evidence) => CreateIncidentDoes(s, identity, evidence, env);
    case TransitionIncidentCommand(id, expected, state, actions, acknowledgements, completion) =>
      TransitionIncidentDoes(s, id, expected, state, actions, acknowledgements, completion, env);
    case RecoverIncidentCommand(id, expected, resource, strategy, acknowledgement) =>
      RecoverIncidentDoes(s, id, expected, resource, strategy, acknowledgement, env);
    case SealRunIncidentsCommand(id, runId, bundleId, artifact, ids) =>
        SealRunIncidentsDoes(s, id, runId, bundleId, artifact, ids, env);
  }

  lemma TerminationsDo(s: State, c: TerminationCommand, env: Env)
    requires Filed(s) && HandleTermination(s, c, env).Written?
    ensures DoesTermination(s, c, env, Folded(s, HandleTermination(s, c, env).records))
  {
    match c
    case BeginReleaseCommand(leaseId, expected, reason, key, digest) =>
      BeginTerminationDoes(s, leaseId, ReleaseKind, expected, reason, key, digest, env);
    case BeginExpiryCommand(leaseId, expected, key, digest) =>
      BeginTerminationDoes(s, leaseId, ExpiryKind, expected, EXPIRY_REASON, key, digest, env);
    case CompleteReleaseCommand(leaseId, expected, _, key, digest) =>
        CompleteTerminationDoes(s, leaseId, expected, key, digest, env);
    case CompleteTerminationCommand(leaseId, expected, key, digest) =>
        CompleteTerminationDoes(s, leaseId, expected, key, digest, env);
  }

  lemma CommandsDo(s: State, c: Command, env: Env)
    requires Filed(s) && Handle(s, c, env).Written?
    ensures Does(s, c, env, Folded(s, Handle(s, c, env).records))
  {
    match c
    case Owner(c) => OwnersDo(s, c, env);
    case OnExec(c) => ExecsDo(s, c, env);
    case OnTarget(c) => TargetsDo(s, c, env);
    case OnRun(c) => RunsDo(s, c, env);
    case OnIncident(c) => IncidentsDo(s, c, env);
    case Terminating(c) => TerminationsDo(s, c, env);
  }

  lemma CommitFolds(a: Sys, o: Outcome, at: Time)
    requires o.Written? && Agrees(a.state, o)
    ensures Commit(a, o, at).state == Folded(a.state, o.records)
  {
    ReplayedIsFolded(a.state, o.records);
  }

  lemma StepFolds(a: Sys, m: Move)
    requires Consistent(a) && Allowed(a, m) && Handle(a.state, m.command, m.env).Written?
    ensures Step(a, m).state == Folded(a.state, Handle(a.state, m.command, m.env).records)
  {
    AllowedAgrees(a, m);
    CommitFolds(a, Handle(a.state, m.command, m.env), m.env.stamp);
  }

  lemma RefusedStays(a: Sys, m: Move)
    requires !Handle(a.state, m.command, m.env).Written?
    ensures Step(a, m).state == a.state && Step(a, m).journal == a.journal
  {}

  lemma WrittenDoes(a: Sys, m: Move)
    requires Consistent(a) && Allowed(a, m) && Handle(a.state, m.command, m.env).Written?
    ensures Does(a.state, m.command, m.env, Step(a, m).state)
  {
    StepFolds(a, m);
    InvFiled(a.state);
    CommandsDo(a.state, m.command, m.env);
  }

  /** A step that is allowed changes the projection by exactly the effect of its command,
      or, if the command is refused, not at all. */
  lemma StepDoes(a: Sys, m: Move)
    requires Consistent(a) && Allowed(a, m)
    ensures if Handle(a.state, m.command, m.env).Written? then Does(a.state, m.command, m.env, Step(a, m).state)
            else Step(a, m).state == a.state && Step(a, m).journal == a.journal
  {
    if Handle(a.state, m.command, m.env).Written? { WrittenDoes(a, m); } else { RefusedStays(a, m); }
  }
}
