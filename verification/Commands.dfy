/** What each lifecycle command appends to the journal, as a function of the
    projection it reads under the core's lock.

    `Env.guard` is the clock reading used by the admission gates and `Env.stamp` the
    later reading written into the records; `Env.ids` are the generated identities. */
module Commands {
  import opened States
  import opened Records
  import opened Replay

  datatype Ids = Ids(session: Token, lease: Token, agent: Token, workspace: Token, exec: Token,
                     target: Token, run: Token, operation: Token, incident: Token)

  datatype Env = Env(guard: Time, stamp: Time, ids: Ids)

  datatype Error =
    | InvalidArgument | NotFound | OutOfScope | RevisionConflict | IdempotencyConflict
    | FailedPrecondition | InvalidTransition | IntegrityViolation

  datatype Outcome = Rejected(error: Error) | Written(records: seq<Control>)

  datatype Result<+T> = Err(error: Error) | Ok(value: T)
  {
    predicate IsFailure() { Err? }
    function PropagateFailure<U>(): Result<U> requires Err? { Err(error) }
    function Extract(): T requires Ok? { value }
  }

  function Concluded(r: Result<seq<Control>>): Outcome {
    match r case Err(e) => Rejected(e) case Ok(records) => Written(records)
  }

  // ---------------------------------------------------------------------- gates

  predicate LeaseAdmits(lease: Lease, now: Time) {
    lease.state.LeaseActive? && lease.termination.Empty() && now < lease.expiresAt
  }

  /** Cleanup may still mutate a target while its lease is terminating. */
  predicate LeaseAdmitsMutation(lease: Lease, now: Time, cleanup: bool) {
    (cleanup && lease.termination.InProgress()) || LeaseAdmits(lease, now)
  }

  function FindLease(s: State, id: Token): Result<Lease> { if id in s.leases then Ok(s.leases[id]) else Err(NotFound) }

  function FindAgent(s: State, id: Token): Result<Agent> { if id in s.agents then Ok(s.agents[id]) else Err(NotFound) }

  function FindExec(s: State, id: Token): Result<Exec> { if id in s.execs then Ok(s.execs[id]) else Err(NotFound) }

  function FindTarget(s: State, id: Token): Result<Target> {
    if id in s.targets then Ok(s.targets[id]) else Err(NotFound)
  }

  function FindIncident(s: State, id: Token): Result<Incident> {
    if id in s.incidents then Ok(s.incidents[id]) else Err(NotFound)
  }

  function GateTarget(s: State, id: Token, cleanup: bool, env: Env): Result<Target> {
    var target :- FindTarget(s, id);
    var leaseId := target.identity.leaseId;
    if leaseId in s.leases && LeaseAdmitsMutation(s.leases[leaseId], env.guard, cleanup) then Ok(target)
    else Err(OutOfScope)
  }

  function AcceptingWork(s: State, agentId: Token, generation: nat): Result<Agent> {
    if agentId !in s.agents || s.agents[agentId].current != generation then Err(OutOfScope) else
    var agent := s.agents[agentId];
    var i := AgentGenIndex(agent.generations, generation);
    if i >= |agent.generations| then Err(NotFound) else
    var state := agent.generations[i].state;
    if !state.AgentReady? && !state.AgentRunning? then Err(FailedPrecondition) else
    Ok(agent)
  }

  predicate ExecsDone(s: State, agentId: Token, generation: nat) {
    forall id | id in s.execs ::
      s.execs[id].identity.agentId == agentId && s.execs[id].identity.agentGeneration == generation
      ==> ExecTerminal(s.execs[id].state)
  }

  /** No live operation of the target belongs to a run of the agent generation. */
  predicate OperationsDone(t: Target, agentId: Token, generation: nat) {
    forall k | 0 <= k < |t.operations| && !OperationTerminal(t.operations[k].state) ::
      var r := RunIndex(t.runs, t.operations[k].identity.runId);
      r < |t.runs| && !(t.runs[r].identity.agentId == agentId && t.runs[r].identity.agentGeneration == generation)
  }

  predicate AgentIdle(s: State, agentId: Token, generation: nat) {
    ExecsDone(s, agentId, generation) && forall id | id in s.targets ::
        OperationsDone(s.targets[id], agentId, generation)
  }

  // ------------------------------------------------------- sessions and leases

  function Acquire(s: State, key: Token, owner: Token, provenance: Provenance, ttl: nat, env: Env): Outcome {
    if key == 0 || owner == 0 || !CompleteProvenance(provenance) || ttl == 0 then Rejected(InvalidArgument)
    else
      var at, ids := env.stamp, env.ids;
      var requested := Session(ids.session, SessionIdentity(owner, key, ids.lease, ids.agent, provenance, at),
                               SessionRequested, 1, at);
      var admitted := requested.(state := SessionAdmitted, revision := 2);
      var leased := requested.(state := SessionLeased, revision := 3);
      var lease := Lease(ids.lease, LeaseIdentity(ids.session, ids.agent, provenance, at), 1, LeaseActive,
                         at + ttl, NO_TERMINATION, 1, at);
      var agent := Agent(ids.agent, ids.session, at, 1, 1, at, [NewAgentGen(1, provenance, 0, 0, env)]);
      Written([Entry(SessionBody(requested)), Entry(SessionBody(admitted)), Entry(SessionBody(leased)),
               Entry(LeaseBody(lease)), Entry(AgentBody(agent))])
  }

  function NewAgentGen(generation: nat, provenance: Provenance, previous: nat, incidentId: Token, env: Env): AgentGen {
    AgentGen(AgentGenIdentity(generation, env.ids.workspace, provenance, previous, incidentId, env.stamp),
             AgentBinding(0, 0, 0), AgentProvisioning, 1, env.stamp)
  }

  function RenewLease(s: State, leaseId: Token, expected: nat, ttl: nat, env: Env): Outcome {
    Concluded(
      if ttl == 0 then Err(InvalidArgument) else
      var lease :- FindLease(s, leaseId);
      if lease.revision != expected then Err(RevisionConflict) else
      if !LeaseAdmits(lease, env.guard) then Err(OutOfScope) else
      if lease.expiresAt >= env.stamp + ttl then Err(InvalidArgument) else
      Ok([Entry(LeaseBody(lease.(revision := lease.revision + 1, expiresAt := env.stamp + ttl,
          updatedAt := env.stamp)))]))
  }

  function TransitionAgent(s: State, agentId: Token, generation: nat, expected: nat, state: AgentState,
      env: Env): Outcome
  {
    Concluded(
      var agent :- FindAgent(s, agentId);
      var i := AgentGenIndex(agent.generations, generation);
      if i >= |agent.generations| then Err(NotFound) else
      if agent.generations[i].revision != expected then Err(RevisionConflict) else
      if !AgentStep(agent.generations[i].state, state) then Err(InvalidTransition) else
      if state.AgentQuiescing? && !AgentIdle(s, agentId, generation) then Err(FailedPrecondition) else
      Ok([Entry(AgentBody(AgentGenMoved(agent, i, state, env.stamp)))]))
  }

  function BindAgentPlan(s: State, agentId: Token, generation: nat, expected: nat, binding: AgentBinding,
      env: Env): Outcome
  {
    Concluded(
      if generation == 0 || expected == 0 || !binding.Complete() then Err(InvalidArgument) else
      var agent :- FindAgent(s, agentId);
      if agent.current != generation then Err(FailedPrecondition) else
      var i := AgentGenIndex(agent.generations, generation);
      if i >= |agent.generations| then Err(NotFound) else
      var g := agent.generations[i];
      if g.revision != expected then Err(RevisionConflict) else
      if !g.state.AgentProvisioning? then Err(FailedPrecondition) else
      if !g.binding.Empty() then Err(IdempotencyConflict) else
      if agent.sessionId !in s.sessions then Err(NotFound) else
      var leaseId := s.sessions[agent.sessionId].identity.leaseId;
      if leaseId !in s.leases then Err(OutOfScope) else
      var lease := s.leases[leaseId];
      if lease.identity.agentId != agentId || lease.agentGeneration != generation then Err(OutOfScope) else
      if !LeaseAdmits(lease, env.guard) then Err(OutOfScope) else
      var bound := g.(binding := binding, revision := g.revision + 1, updatedAt := env.stamp);
      Ok([Entry(AgentBody(WithAgentGen(agent, i, bound, env.stamp)))]))
  }

  /** The agent with one generation replaced, at its next revision. */
  function WithAgentGen(agent: Agent, i: nat, g: AgentGen, at: Time): Agent
    requires i < |agent.generations|
  {
    agent.(generations := agent.generations[i := g], revision := agent.revision + 1, updatedAt := at)
  }

  function AgentGenMoved(agent: Agent, i: nat, state: AgentState, at: Time): Agent
    requires i < |agent.generations|
  {
    var g := agent.generations[i];
    WithAgentGen(agent, i, g.(state := state, revision := g.revision + 1, updatedAt := at), at)
  }

  // ---------------------------------------------------------------------- execs

  function CreateExec(s: State, leaseId: Token, command: Token, env: Env): Outcome {
    Concluded(
      if command == 0 then Err(InvalidArgument) else
      var lease :- FindLease(s, leaseId);
      if !LeaseAdmits(lease, env.guard) then Err(OutOfScope) else
      var agent :- AcceptingWork(s, lease.identity.agentId, lease.agentGeneration);
      Ok([Entry(ExecBody(Exec(env.ids.exec,
            ExecIdentity(lease.identity.sessionId, leaseId, agent.id, agent.current, command, env.stamp),
            ExecRequested, 1, ExecOutcome(None, 0, false, 0), [], env.stamp)))]))
  }

  function TransitionExec(s: State, execId: Token, expected: nat, state: ExecState, env: Env): Outcome {
    Concluded(
      if ExecTerminal(state) then Err(FailedPrecondition) else
      var exec :- FindExec(s, execId);
      var lease :- FindLease(s, exec.identity.leaseId);
      if !LeaseAdmits(lease, env.guard) then Err(OutOfScope) else
      if exec.revision != expected then Err(RevisionConflict) else
      if !ExecStep(exec.state, state) then Err(InvalidTransition) else
      var moved := Entry(ExecBody(exec.(state := state, revision := exec.revision + 1, updatedAt := env.stamp)));
      if !state.ExecRunning? then Ok([moved])
      else
        var agent :- FindAgent(s, exec.identity.agentId);
        var i := AgentGenIndex(agent.generations, exec.identity.agentGeneration);
        if i >= |agent.generations| then Err(NotFound) else
        if agent.generations[i].state.AgentReady? then
          Ok([Entry(AgentBody(AgentGenMoved(agent, i, AgentRunning, env.stamp))), moved])
        else
          if !agent.generations[i].state.AgentRunning? then Err(FailedPrecondition) else
          Ok([moved]))
  }

  predicate ExecIncidentMatches(s: State, exec: Exec, id: Token)
    requires id in s.incidents
  {
    var i := s.incidents[id].identity;
    i.sessionId == exec.identity.sessionId && i.execId == exec.id &&
    i.agentId == exec.identity.agentId && i.agentGeneration == exec.identity.agentGeneration
  }

  function FinalizeExec(s: State, execId: Token, expected: nat, state: ExecState, outcome: ExecOutcome,
      incidentIds: seq<Token>, env: Env): Outcome
  {
    Concluded(
      if !ExecTerminal(state) then Err(InvalidArgument) else
      if state.ExecCompleted? && (outcome.exitCode != Some(0) || !outcome.cleanupConfirmed) then Err(InvalidArgument)
      else
      if 0 in incidentIds then Err(InvalidArgument) else
      var exec :- FindExec(s, execId);
      if exec.revision != expected then Err(RevisionConflict) else
      if !(forall k | 0 <= k < |incidentIds| :: incidentIds[k] in s.incidents) then Err(NotFound) else
      if !(forall k | 0 <= k < |incidentIds| :: ExecIncidentMatches(s, exec, incidentIds[k])) then Err(OutOfScope) else
      if !ExecStep(exec.state, state) then Err(InvalidTransition) else
      var kept := if outcome.exitCode.Some? then outcome else outcome.(exitCode := exec.outcome.exitCode);
      Ok([Entry(ExecBody(exec.(state := state, revision := exec.revision + 1, updatedAt := env.stamp, outcome := kept,
                               incidentIds := Merged(exec.incidentIds, incidentIds))))]))
  }

  // -------------------------------------------------------------------- targets

  function Touched(t: Target, at: Time): Target { t.(revision := t.revision + 1, updatedAt := at) }

  function TargetGenMoved(t: Target, i: nat, state: TargetState, at: Time): Target
    requires i < |t.generations|
  {
    var g := t.generations[i];
    Touched(t.(generations := t.generations[i := g.(state := state, revision := g.revision + 1, updatedAt := at)]), at)
  }

  function WithRun(t: Target, i: nat, r: Run, at: Time): Target
    requires i < |t.runs|
  {
    Touched(t.(runs := t.runs[i := r]), at)
  }

  function RunMoved(r: Run, state: RunState, at: Time): Run {
    r.(state := state, revision := r.revision + 1, updatedAt := at)
  }

  function OperationMoved(o: Operation, state: OperationState, at: Time): Operation {
    o.(state := state, revision := o.revision + 1, updatedAt := at)
  }

  function NewTargetGen(generation: nat, policy: Token, capability: Token, previous: nat, incidentId: Token,
      at: Time): TargetGen
  {
    TargetGen(TargetGenIdentity(generation, policy, capability, previous, incidentId, at),
              Binding(0, 0), TargetProvisioning, 1, at)
  }

  /** A new realization after the given one, at the target's next revision. */
  function NextTargetGen(t: Target, i: nat, incidentId: Token, at: Time): Target
    requires i < |t.generations|
  {
    var prior := t.generations[i].identity;
    Touched(t.(current := prior.generation + 1,
               generations := t.generations +
                 [NewTargetGen(prior.generation + 1, prior.policy, prior.capability, prior.generation, incidentId,
                     at)]), at)
  }

  function RecordedTarget(r: Result<Target>): Outcome {
    match r case Err(e) => Rejected(e) case Ok(t) => Written([Entry(TargetBody(t))])
  }

  function CreateTarget(s: State, leaseId: Token, key: Token, template: Token, kind: Token, policy: Token,
      capability: Token, env: Env): Outcome
  {
    Concluded(
      if key == 0 || template == 0 || kind == 0 || policy == 0 || capability == 0 then Err(InvalidArgument) else
      var lease :- FindLease(s, leaseId);
      if !LeaseAdmits(lease, env.guard) then Err(OutOfScope) else
      Ok([Entry(TargetBody(Target(env.ids.target,
            TargetIdentity(lease.identity.sessionId, leaseId, key, template, kind, env.stamp), 1, 1, env.stamp,
            [NewTargetGen(1, policy, capability, 0, 0, env.stamp)], [], [])))]))
  }

  function TransitionTargetGen(s: State, targetId: Token, generation: nat, expected: nat, state: TargetState,
      env: Env): Outcome
  {
    RecordedTarget(
      var t :- GateTarget(s, targetId, false, env);
      var i := TargetGenIndex(t.generations, generation);
      if i >= |t.generations| then Err(NotFound) else
      if t.generations[i].revision != expected then Err(RevisionConflict) else
      if !TargetStep(t.generations[i].state, state) then Err(InvalidTransition) else
      Ok(TargetGenMoved(t, i, state, env.stamp)))
  }

  function BindTargetPlan(s: State, targetId: Token, generation: nat, expected: nat, binding: Binding,
      env: Env): Outcome
  {
    RecordedTarget(
      if generation == 0 || expected == 0 || !binding.Complete() then Err(InvalidArgument) else
      var t :- GateTarget(s, targetId, false, env);
      if t.current != generation then Err(FailedPrecondition) else
      var i := TargetGenIndex(t.generations, generation);
      if i >= |t.generations| then Err(NotFound) else
      var g := t.generations[i];
      if g.revision != expected then Err(RevisionConflict) else
      if !g.state.TargetProvisioning? then Err(FailedPrecondition) else
      if !g.binding.Empty() then Err(IdempotencyConflict) else
      var bound := g.(binding := binding, revision := g.revision + 1, updatedAt := env.stamp);
      Ok(Touched(t.(generations := t.generations[i := bound]), env.stamp)))
  }

  function StartRun(s: State, targetId: Token, materialization: Token, env: Env): Outcome {
    RecordedTarget(
      if materialization == 0 then Err(InvalidArgument) else
      var t :- GateTarget(s, targetId, false, env);
      var lease := s.leases[t.identity.leaseId];
      var _ :- AcceptingWork(s, lease.identity.agentId, lease.agentGeneration);
      var i := TargetGenIndex(t.generations, t.current);
      if i >= |t.generations| then Err(NotFound) else
      if !t.generations[i].state.TargetReady? then Err(FailedPrecondition) else
      if !(forall k | 0 <= k < |t.runs| :: t.runs[k].identity.generation != t.current) then Err(FailedPrecondition) else
      var run := Run(env.ids.run,
                     RunIdentity(t.current, lease.identity.agentId, lease.agentGeneration, materialization, env.stamp),
                     Binding(0, 0), RunRequested, 1, Bundle(0, 0, 0), [], env.stamp);
      Ok(Touched(t.(runs := t.runs + [run]), env.stamp)))
  }

  function BindRunPlan(s: State, targetId: Token, runId: Token, expected: nat, binding: Binding, env: Env): Outcome {
    RecordedTarget(
      if expected == 0 || !binding.Complete() then Err(InvalidArgument) else
      var t :- GateTarget(s, targetId, false, env);
      var i := RunIndex(t.runs, runId);
      if i >= |t.runs| then Err(NotFound) else
      var r := t.runs[i];
      if r.revision != expected then Err(RevisionConflict) else
      if !r.state.RunRequested? then Err(FailedPrecondition) else
      if !r.binding.Empty() then Err(IdempotencyConflict) else
      Ok(WithRun(t, i, r.(binding := binding, revision := r.revision + 1, updatedAt := env.stamp), env.stamp)))
  }

  function TransitionRun(s: State, targetId: Token, runId: Token, expected: nat, state: RunState, env: Env): Outcome {
    RecordedTarget(
      var t :- GateTarget(s, targetId, RunTerminal(state), env);
      var i := RunIndex(t.runs, runId);
      if i >= |t.runs| then Err(NotFound) else
      if t.runs[i].revision != expected then Err(RevisionConflict) else
      if state.RunCompleted? || state.RunFailed? then Err(FailedPrecondition) else
      if !RunStep(t.runs[i].state, state) then Err(InvalidTransition) else
      Ok(WithRun(t, i, RunMoved(t.runs[i], state, env.stamp), env.stamp)))
  }

  predicate RunIncidentMatches(s: State, t: Target, r: Run, id: Token)
    requires id in s.incidents
  {
    var i := s.incidents[id].identity;
    i.sessionId == t.identity.sessionId && i.targetId == t.id && i.runId == r.id
        && i.targetGeneration == r.identity.generation
  }

  /** The target after the final record of a run: the run is terminal with its
      bundle, and a ready realization becomes resettable. */
  function RunClosed(t: Target, i: nat, terminal: RunState, bundle: Bundle, incidentIds: seq<Token>, at: Time): Target
    requires i < |t.runs|
  {
    var r := t.runs[i];
    var closed := RunMoved(r, terminal, at).(bundle := bundle, incidentIds := Merged(r.incidentIds, incidentIds));
    var g := TargetGenIndex(t.generations, r.identity.generation);
    var generations :=
      if g < |t.generations| && t.generations[g].state.TargetReady? then
        t.generations[g := t.generations[g].(state := TargetResettable, revision := t.generations[g].revision + 1,
            updatedAt := at)]
      else t.generations;
    Touched(t.(runs := t.runs[i := closed], generations := generations), at)
  }

  function FinalizeRun(s: State, targetId: Token, runId: Token, expected: nat, failed: bool, bundle: Bundle,
      incidentIds: seq<Token>, env: Env): Outcome
  {
    Concluded(
      if bundle.id == 0 || (bundle.artifact == 0) != (bundle.digest == 0) || 0 in incidentIds
      then Err(InvalidArgument) else
      var t :- GateTarget(s, targetId, true, env);
      var i := RunIndex(t.runs, runId);
      if i >= |t.runs| then Err(NotFound) else
      var r := t.runs[i];
      if r.revision != expected then Err(RevisionConflict) else
      if !(forall k | 0 <= k < |incidentIds| :: incidentIds[k] in s.incidents) then Err(NotFound) else
      if !(forall k | 0 <= k < |incidentIds| :: RunIncidentMatches(s, t, r, incidentIds[k])) then Err(OutOfScope) else
      RunEnding(t, i, failed, bundle, incidentIds, env.stamp))
  }

  /** The revisions that end a run: a run that is to complete first becomes finalizing. */
  function RunEnding(t: Target, i: nat, failed: bool, bundle: Bundle, incidentIds: seq<Token>,
      at: Time): Result<seq<Control>>
    requires i < |t.runs|
  {
    var r := t.runs[i];
    if failed then
      if !RunStep(r.state, RunFailed) then Err(InvalidTransition) else
      Ok([Entry(TargetBody(RunClosed(t, i, RunFailed, bundle, incidentIds, at)))])
    else if r.state.RunFinalizing? then
      Ok([Entry(TargetBody(RunClosed(t, i, RunCompleted, bundle, incidentIds, at)))])
    else
      if !RunStep(r.state, RunFinalizing) then Err(InvalidTransition) else
      var finalizing := WithRun(t, i, RunMoved(r, RunFinalizing, at), at);
      Ok([Entry(TargetBody(finalizing)),
          Entry(TargetBody(RunClosed(finalizing, i, RunCompleted, bundle, incidentIds, at)))])
  }

  function CreateOperation(s: State, targetId: Token, runId: Token, description: Token, env: Env): Outcome {
    RecordedTarget(
      var t :- FindTarget(s, targetId);
      var i := RunIndex(t.runs, runId);
      if i >= |t.runs| then Err(NotFound) else
      var r := t.runs[i];
      if !r.state.RunRunning? then Err(FailedPrecondition) else
      var lease :- FindLease(s, t.identity.leaseId);
      if !LeaseAdmits(lease, env.guard) then Err(OutOfScope) else
      var _ :- AcceptingWork(s, r.identity.agentId, r.identity.agentGeneration);
      if description == 0 then Err(InvalidArgument) else
      var o := Operation(env.ids.operation, OperationIdentity(r.id, r.identity.generation, description, env.stamp),
                         OperationRequested, 1, env.stamp);
      Ok(Touched(t.(operations := t.operations + [o]), env.stamp)))
  }

  function TransitionOperation(s: State, targetId: Token, operationId: Token, expected: nat, state: OperationState,
      env: Env): Outcome
  {
    RecordedTarget(
      var t :- GateTarget(s, targetId, OperationTerminal(state), env);
      var i := OperationIndex(t.operations, operationId);
      if i >= |t.operations| then Err(NotFound) else
      if t.operations[i].revision != expected then Err(RevisionConflict) else
      if !OperationStep(t.operations[i].state, state) then Err(InvalidTransition) else
      Ok(Touched(t.(operations := t.operations[i := OperationMoved(t.operations[i], state, env.stamp)]), env.stamp)))
  }

  function ResetTarget(s: State, targetId: Token, expected: nat, incidentId: Token, env: Env): Outcome {
    RecordedTarget(
      var t :- GateTarget(s, targetId, false, env);
      if t.revision != expected then Err(RevisionConflict) else
      if !(forall k | 0 <= k < |t.runs| ::
             t.runs[k].identity.generation == t.current ==> RunTerminal(t.runs[k].state))
      then Err(FailedPrecondition) else
      var i := TargetGenIndex(t.generations, t.current);
      if i >= |t.generations| then Err(NotFound) else
      var prior := t.generations[i];
      if !prior.state.TargetResettable? && !prior.state.TargetFailed? && !prior.state.TargetDestroyed?
      then Err(FailedPrecondition) else
      var sealed :=
        if prior.state.TargetResettable? then
          t.(generations := t.generations[i :=
              prior.(state := TargetDestroyed, revision := prior.revision + 1, updatedAt := env.stamp)])
        else t;
      Ok(NextTargetGen(sealed, i, incidentId, env.stamp)))
  }

  function CancelledOperations(operations: seq<Operation>, current: nat, at: Time): seq<Operation> {
    seq(|operations|, k requires 0 <= k < |operations| =>
      if operations[k].identity.generation == current && !OperationTerminal(operations[k].state)
      then OperationMoved(operations[k], OperationCancelled, at) else operations[k])
  }

  function QuarantinedRuns(runs: seq<Run>, current: nat, at: Time): seq<Run> {
    seq(|runs|, k requires 0 <= k < |runs| =>
      if runs[k].identity.generation == current && !RunTerminal(runs[k].state)
      then RunMoved(runs[k], RunQuarantined, at) else runs[k])
  }

  /** Physical containment is proven by evidence naming the target and its generation. */
  function QuarantineTarget(s: State, targetId: Token, expected: nat, evidenceTarget: Token, evidenceGeneration: nat,
      env: Env): Outcome
  {
    Concluded(
      var t :- GateTarget(s, targetId, true, env);
      if t.revision != expected then Err(RevisionConflict) else
      var i := TargetGenIndex(t.generations, t.current);
      if i >= |t.generations| then Err(NotFound) else
      if evidenceTarget != t.id || evidenceGeneration != t.current then Err(InvalidArgument) else
      if t.generations[i].state.TargetQuarantined? then Ok([])
      else
        if !TargetStep(t.generations[i].state, TargetQuarantined) then Err(InvalidTransition) else
        Ok([Entry(TargetBody(Quarantined(t, i, env.stamp)))]))
  }

  function Quarantined(t: Target, i: nat, at: Time): Target
    requires i < |t.generations|
  {
    TargetGenMoved(t.(operations := CancelledOperations(t.operations, t.current, at),
                      runs := QuarantinedRuns(t.runs, t.current, at)), i, TargetQuarantined, at)
  }

  // ------------------------------------------------------------------ incidents

  predicate CompleteArtifacts(artifacts: seq<Artifact>) {
    forall k | 0 <= k < |artifacts| :: artifacts[k].reference != 0 && artifacts[k].digest != 0
  }

  /** Whatever a new incident names must exist and belong to the incident's session. */
  predicate NamesLease(s: State, i: IncidentIdentity) {
    i.leaseId != 0 ==> i.leaseId in s.leases && s.leases[i.leaseId].identity.sessionId == i.sessionId
  }

  predicate NamesAgent(s: State, i: IncidentIdentity) {
    i.agentId != 0 ==>
      && i.agentId in s.agents
      && (var agent := s.agents[i.agentId];
          && agent.sessionId == i.sessionId
          && (i.agentGeneration != 0 ==>
                AgentGenIndex(agent.generations, i.agentGeneration) < |agent.generations|))
  }

  predicate NamesExec(s: State, i: IncidentIdentity) {
    i.execId != 0 ==>
      && i.execId in s.execs
      && (var e := s.execs[i.execId].identity;
          e.sessionId == i.sessionId && e.leaseId == i.leaseId &&
          e.agentId == i.agentId && e.agentGeneration == i.agentGeneration)
  }

  predicate NamesTarget(s: State, i: IncidentIdentity) {
    i.targetId != 0 ==>
      && i.targetId in s.targets
      && (var target := s.targets[i.targetId];
          && target.identity.sessionId == i.sessionId
          && (i.targetGeneration != 0 ==>
                TargetGenIndex(target.generations, i.targetGeneration) < |target.generations|)
          && (i.runId != 0 ==> LinkedIncidentRun(target, i)))
  }

  function CreateIncident(s: State, wanted: IncidentIdentity, evidence: Evidence, env: Env): Outcome {
    Concluded(
      var i := wanted.(occurredAt := env.stamp);
      if i.detail == 0 || i.sessionId == 0 || !CompleteArtifacts(evidence.artifacts) then Err(InvalidArgument) else
      if i.sessionId !in s.sessions then Err(NotFound) else
      if !NamesLease(s, i) || !NamesAgent(s, i) then Err(OutOfScope) else
      if !NamesExec(s, i) || !NamesTarget(s, i) then Err(OutOfScope) else
      if i.execId != 0 && (i.agentId == 0 || i.agentGeneration == 0) then Err(InvalidArgument) else
      if i.agentGeneration != 0 && i.agentId == 0 then Err(InvalidArgument) else
      if i.targetGeneration != 0 && i.targetId == 0 then Err(InvalidArgument) else
      if i.runId != 0 && (i.targetId == 0 || i.targetGeneration == 0) then Err(InvalidArgument) else
      var incident := Incident(env.ids.incident, i, evidence, {}, {}, IncidentOpen, 1, env.stamp);
      Ok([Entry(IncidentBody(incident))] + RunLink(s, incident, env.stamp) + ExecLink(s, incident, env.stamp)))
  }

  /** The run named by the incident, with the incident linked. */
  function RunLink(s: State, incident: Incident, at: Time): seq<Control>
    requires incident.identity.runId != 0 ==> incident.identity.targetId in s.targets
    requires incident.identity.runId != 0 ==>
            HasRun(s.targets[incident.identity.targetId].runs, incident.identity.runId)
  {
    if incident.identity.runId == 0 then []
    else
      var t := s.targets[incident.identity.targetId];
      var k := RunIndex(t.runs, incident.identity.runId);
      [Entry(TargetBody(WithRun(t, k, t.runs[k].(incidentIds := Merged(t.runs[k].incidentIds, [incident.id])), at)))]
  }

  function ExecLink(s: State, incident: Incident, at: Time): seq<Control>
    requires incident.identity.execId != 0 ==> incident.identity.execId in s.execs
  {
    if incident.identity.execId == 0 then []
    else
      var e := s.execs[incident.identity.execId];
      [Entry(ExecBody(e.(incidentIds := Merged(e.incidentIds, [incident.id]), revision := e.revision + 1,
          updatedAt := at)))]
  }

  /** The physical actions that would complete the intents among some actions. */
  function PhysicalCounterparts(actions: set<Action>): set<Action> {
    set a | a in actions && a.Intended? && a.strategy != 0 :: Physical(a.resource, a.strategy)
  }

  function ExactCompletion(existing: set<Action>, completed: set<Action>): Result<()> {
    var wanted := PhysicalCounterparts(existing);
    if |wanted| != 1 then Err(IntegrityViolation)
    else if wanted <= completed then Ok(())
    else Err(FailedPrecondition)
  }

  function TransitionIncident(s: State, incidentId: Token, expected: nat, state: IncidentState, actions: set<Action>,
      acknowledgements: set<Token>, completion: bool, env: Env): Outcome
  {
    Concluded(
      if completion && !state.IncidentResolved? then Err(InvalidArgument) else
      if state.IncidentRecovering? then Err(FailedPrecondition) else
      if Remark(0) in actions || 0 in acknowledgements then Err(InvalidArgument) else
      var v :- FindIncident(s, incidentId);
      if v.revision != expected then Err(RevisionConflict) else
      if state.IncidentEvidenceSealed? && v.evidence.artifacts == [] && v.evidence.bundleId == 0
      then Err(FailedPrecondition) else
      if v.state.IncidentRecovering? && state.IncidentResolved? && !completion then Err(FailedPrecondition) else
      if completion && !v.state.IncidentRecovering? then Err(FailedPrecondition) else
      if completion && !(v.recoveryActions <= actions && v.acknowledgements <= acknowledgements)
      then Err(IntegrityViolation) else
      var _ :- (if completion then ExactCompletion(v.recoveryActions, actions) else Ok(()));
      if !IncidentStep(v.state, state) then Err(InvalidTransition) else
      Ok([Entry(IncidentBody(v.(state := state, revision := v.revision + 1, updatedAt := env.stamp,
                                recoveryActions := actions, acknowledgements := acknowledgements)))]))
  }

  /** The states of one realization written one after the other. */
  function TargetAlong(t: Target, i: nat, path: seq<TargetState>, at: Time): (r: Target)
    requires i < |t.generations|
    ensures |r.generations| == |t.generations|
    decreases |path|
  {
    if path == [] then t else TargetAlong(TargetGenMoved(t, i, path[0], at), i, path[1..], at)
  }

  function TargetTrail(t: Target, i: nat, path: seq<TargetState>, at: Time): seq<Control>
    requires i < |t.generations|
    decreases |path|
  {
    if path == [] then []
    else
      var next := TargetGenMoved(t, i, path[0], at);
      [Entry(TargetBody(next))] + TargetTrail(next, i, path[1..], at)
  }

  function AgentAlong(a: Agent, i: nat, path: seq<AgentState>, at: Time): (r: Agent)
    requires i < |a.generations|
    ensures |r.generations| == |a.generations|
    decreases |path|
  {
    if path == [] then a else AgentAlong(AgentGenMoved(a, i, path[0], at), i, path[1..], at)
  }

  function AgentTrail(a: Agent, i: nat, path: seq<AgentState>, at: Time): seq<Control>
    requires i < |a.generations|
    decreases |path|
  {
    if path == [] then []
    else
      var next := AgentGenMoved(a, i, path[0], at);
      [Entry(AgentBody(next))] + AgentTrail(next, i, path[1..], at)
  }

  function RecoverTarget(s: State, v: Incident, lease: Lease, env: Env): Result<seq<Control>> {
    var i := v.identity;
    if i.targetId == 0 || i.targetGeneration == 0 then Err(FailedPrecondition) else
    if i.targetId !in s.targets then Err(OutOfScope) else
    var t := s.targets[i.targetId];
    if t.identity.sessionId != i.sessionId || t.identity.leaseId != lease.id then Err(OutOfScope) else
    if t.current != i.targetGeneration then Err(FailedPrecondition) else
    if !(forall k | 0 <= k < |t.runs| ::
           t.runs[k].identity.generation == t.current ==> RunTerminal(t.runs[k].state) && t.runs[k].bundle.id != 0)
    then Err(FailedPrecondition) else
    var g := TargetGenIndex(t.generations, t.current);
    if g >= |t.generations| then Err(NotFound) else
    var path := TargetRetirement(t.generations[g].state);
    Ok(TargetTrail(t, g, path, env.stamp) +
       [Entry(TargetBody(NextTargetGen(TargetAlong(t, g, path, env.stamp), g, v.id, env.stamp)))])
  }

  /** A new agent realization after the given one, at the agent's next revision. */
  function NextAgentGen(a: Agent, i: nat, incidentId: Token, env: Env): Agent
    requires i < |a.generations|
  {
    var prior := a.generations[i].identity;
    a.(current := prior.generation + 1,
       generations := a.generations
           + [NewAgentGen(prior.generation + 1, prior.provenance, prior.generation, incidentId, env)],
       revision := a.revision + 1, updatedAt := env.stamp)
  }

  function RecoverAgent(s: State, v: Incident, lease: Lease, env: Env): Result<seq<Control>> {
    var i := v.identity;
    if i.agentId == 0 || i.agentGeneration == 0 then Err(FailedPrecondition) else
    if i.agentId !in s.agents then Err(OutOfScope) else
    var a := s.agents[i.agentId];
    if a.sessionId != i.sessionId || lease.identity.agentId != i.agentId then Err(OutOfScope) else
    if a.current != i.agentGeneration || lease.agentGeneration != i.agentGeneration then Err(FailedPrecondition) else
    if !(forall id | id in s.execs ::
           s.execs[id].identity.leaseId == lease.id && s.execs[id].identity.agentGeneration == a.current
           ==> ExecTerminal(s.execs[id].state))
    then Err(FailedPrecondition) else
    if !(forall id | id in s.targets ::
           s.targets[id].identity.leaseId == lease.id ==> RunsBundled(s.targets[id], a))
    then Err(FailedPrecondition) else
    var g := AgentGenIndex(a.generations, a.current);
    if g >= |a.generations| then Err(NotFound) else
    var path := AgentRetirement(a.generations[g].state);
    var next := NextAgentGen(AgentAlong(a, g, path, env.stamp), g, v.id, env);
    Ok(AgentTrail(a, g, path, env.stamp) +
       [Entry(AgentBody(next)),
        Entry(LeaseBody(lease.(agentGeneration := next.current, revision := lease.revision + 1,
            updatedAt := env.stamp)))])
  }

  predicate RunsBundled(t: Target, a: Agent) {
    forall k | 0 <= k < |t.runs| ::
      t.runs[k].identity.agentId == a.id && t.runs[k].identity.agentGeneration == a.current ==>
      RunTerminal(t.runs[k].state) && t.runs[k].bundle.id != 0
  }

  function Recovering(v: Incident, resource: Resource, strategy: Token, acknowledgement: Token, at: Time): Incident {
    v.(state := IncidentRecovering, revision := v.revision + 1, updatedAt := at,
       recoveryActions := v.recoveryActions + {Intended(resource, strategy)},
       acknowledgements := v.acknowledgements + {acknowledgement})
  }

  function RecoverIncident(s: State, incidentId: Token, expected: nat, resource: Resource, strategy: Token,
      acknowledgement: Token, env: Env): Outcome
  {
    Concluded(
      if strategy == 0 || acknowledgement == 0 then Err(InvalidArgument) else
      var v :- FindIncident(s, incidentId);
      if v.revision != expected then Err(RevisionConflict) else
      if !v.state.IncidentEvidenceSealed? then Err(FailedPrecondition) else
      if v.identity.leaseId !in s.leases then Err(OutOfScope) else
      var lease := s.leases[v.identity.leaseId];
      if lease.identity.sessionId != v.identity.sessionId then Err(OutOfScope) else
      if !LeaseAdmits(lease, env.guard) then Err(OutOfScope) else
      var begun := Recovering(v, resource, strategy, acknowledgement, env.stamp);
      var rest :- (if resource.TargetResource? then RecoverTarget(s, begun, lease, env)
          else RecoverAgent(s, begun, lease, env));
      Ok([Entry(IncidentBody(begun))] + rest))
  }

  /** The position of an artifact reference; |artifacts| when it is not there. */
  function ArtifactIndex(artifacts: seq<Artifact>, reference: Token): (i: nat)
    ensures i <= |artifacts|
    ensures i < |artifacts| ==> artifacts[i].reference == reference
    ensures forall j | 0 <= j < i :: artifacts[j].reference != reference
  {
    if |artifacts| == 0 || artifacts[0].reference == reference then 0 else 1 + ArtifactIndex(artifacts[1..], reference)
  }

  function WithArtifact(artifacts: seq<Artifact>, desired: Artifact): Result<seq<Artifact>> {
    var i := ArtifactIndex(artifacts, desired.reference);
    if i == |artifacts| then Ok(artifacts + [desired])
    else if artifacts[i] == desired then Ok(artifacts)
    else Err(IntegrityViolation)
  }

  /** One incident sealed with the bundle of its run; nothing to write if it already is. */
  function SealIncident(s: State, t: Target, r: Run, incidentId: Token, bundleId: Token, artifact: Artifact,
      at: Time): Result<seq<Control>>
  {
    var v :- FindIncident(s, incidentId);
    var i := v.identity;
    if !(i.sessionId == t.identity.sessionId && i.leaseId == t.identity.leaseId && i.targetId == t.id &&
         i.runId == r.id && i.targetGeneration == r.identity.generation)
    then Err(OutOfScope) else
    if v.state.IncidentEvidenceSealed? then
      if v.evidence.bundleId != bundleId || artifact !in v.evidence.artifacts then Err(IntegrityViolation) else
      Ok([])
    else
      if !v.state.IncidentOpen? then Err(FailedPrecondition) else
      if v.evidence.bundleId != 0 && v.evidence.bundleId != bundleId then Err(IntegrityViolation) else
      var artifacts :- WithArtifact(v.evidence.artifacts, artifact);
      Ok([Entry(IncidentBody(v.(evidence := Evidence(bundleId, artifacts), state := IncidentEvidenceSealed,
                                revision := v.revision + 1, updatedAt := at)))])
  }

  function SealAll(s: State, t: Target, r: Run, incidentIds: seq<Token>, bundleId: Token, artifact: Artifact,
      at: Time): Result<seq<Control>>
  {
    if incidentIds == [] then Ok([])
    else
      var front :- SealAll(s, t, r, incidentIds[..|incidentIds| - 1], bundleId, artifact, at);
      var last :- SealIncident(s, t, r, incidentIds[|incidentIds| - 1], bundleId, artifact, at);
      Ok(front + last)
  }

  function SealRunIncidents(s: State, targetId: Token, runId: Token, bundleId: Token, artifact: Artifact,
      incidentIds: seq<Token>, env: Env): Outcome
  {
    Concluded(
      if bundleId == 0 || artifact.reference == 0 || artifact.digest == 0 then Err(InvalidArgument) else
      if incidentIds == [] || 0 in incidentIds then Err(InvalidArgument) else
      var t :- FindTarget(s, targetId);
      var k := RunIndex(t.runs, runId);
      if k >= |t.runs| then Err(NotFound) else
      var r := t.runs[k];
      if !RunTerminal(r.state) || r.bundle != Bundle(bundleId, artifact.reference, artifact.digest)
      then Err(FailedPrecondition) else
      SealAll(s, t, r, Normalized(incidentIds), bundleId, artifact, env.stamp))
  }

  // ---------------------------------------------------------- lease termination

  const EXPIRY_REASON: Token := 1

  function BeginTermination(s: State, leaseId: Token, kind: TerminationKind, expected: nat, reason: Token, key: Token,
      digest: Token, env: Env): Result<seq<Control>>
  {
    var lease :- FindLease(s, leaseId);
    if kind.ExpiryKind? && lease.expiresAt > env.guard then Err(FailedPrecondition) else
    if !lease.termination.Empty() then Err(IdempotencyConflict) else
    if lease.revision != expected then Err(RevisionConflict) else
    if !lease.state.LeaseActive? then Err(FailedPrecondition) else
    if kind.ReleaseKind? && !LeaseAdmits(lease, env.guard) then Err(OutOfScope) else
    if lease.identity.sessionId !in s.sessions then Err(NotFound) else
    var session := s.sessions[lease.identity.sessionId];
    var begun := lease.(
      state := if kind.ReleaseKind? then LeaseReleasing else lease.state,
      revision := lease.revision + 1, updatedAt := env.stamp,
      termination := Termination(kind, if kind.ReleaseKind? then TerminationReleasing else TerminationExpiring,
                                 reason, key, digest, lease.revision + 1, env.stamp, 0, 0, 0));
    if !SessionStep(session.state, SessionReleasing) then Err(InvalidTransition) else
    Ok([Entry(LeaseBody(begun)),
        Entry(SessionBody(SessionMoved(session, SessionReleasing, env.stamp)))])
  }

  function BeginRelease(s: State, leaseId: Token, expected: nat, reason: Token, key: Token, digest: Token,
      env: Env): Outcome
  {
    Concluded(
      if reason == 0 || key == 0 || digest == 0 || expected == 0 then Err(InvalidArgument) else
      BeginTermination(s, leaseId, ReleaseKind, expected, reason, key, digest, env))
  }

  function BeginExpiry(s: State, leaseId: Token, expected: nat, key: Token, digest: Token, env: Env): Outcome {
    Concluded(
      if key == 0 || digest == 0 || expected == 0 then Err(InvalidArgument) else
      BeginTermination(s, leaseId, ExpiryKind, expected, EXPIRY_REASON, key, digest, env))
  }

  predicate TargetWorkDone(t: Target) {
    && (forall k | 0 <= k < |t.runs| :: RunTerminal(t.runs[k].state))
    && (forall k | 0 <= k < |t.operations| :: OperationTerminal(t.operations[k].state))
  }

  predicate LeaseWorkDone(s: State, leaseId: Token) {
    && (forall id | id in s.execs :: s.execs[id].identity.leaseId == leaseId ==> ExecTerminal(s.execs[id].state))
    && (forall id | id in s.targets :: s.targets[id].identity.leaseId == leaseId ==> TargetWorkDone(s.targets[id]))
  }

  function TargetIdsOf(s: State, leaseId: Token): (ids: seq<Token>)
    ensures Ascending(ids)
    ensures forall id :: id in ids <==> id in s.targets && s.targets[id].identity.leaseId == leaseId
  {
    Listed(set id | id in s.targets && s.targets[id].identity.leaseId == leaseId)
  }

  function RetireTarget(t: Target, at: Time): Result<seq<Control>> {
    var g := TargetGenIndex(t.generations, t.current);
    if g < |t.generations| then Ok(TargetTrail(t, g, TargetRetirement(t.generations[g].state), at)) else Err(NotFound)
  }

  function RetireTargets(s: State, ids: seq<Token>, at: Time): Result<seq<Control>>
    requires forall id | id in ids :: id in s.targets
  {
    if ids == [] then Ok([])
    else
      var front :- RetireTargets(s, ids[..|ids| - 1], at);
      var last :- RetireTarget(s.targets[ids[|ids| - 1]], at);
      Ok(front + last)
  }

  function Completed(lease: Lease, key: Token, digest: Token, at: Time): Lease {
    var expiry := lease.termination.kind.ExpiryKind?;
    lease.(state := if expiry then LeaseExpired else LeaseReleased, revision := lease.revision + 1, updatedAt := at,
           termination := lease.termination.(state := if expiry then TerminationExpired else TerminationReleased,
                                             completeKey := key, completeDigest := digest, completedAt := at))
  }

  function RetireAgent(a: Agent, at: Time): Result<seq<Control>> {
    var g := AgentGenIndex(a.generations, a.current);
    if g < |a.generations| then Ok(AgentTrail(a, g, AgentRetirement(a.generations[g].state), at)) else Err(NotFound)
  }

  function SessionMoved(x: Session, state: SessionState, at: Time): Session {
    x.(state := state, revision := x.revision + 1, updatedAt := at)
  }

  /** The last two records of a termination. */
  function Closing(x: Session, l: Lease, key: Token, digest: Token, at: Time): seq<Control> {
    [Entry(LeaseBody(Completed(l, key, digest, at))), Entry(SessionBody(SessionMoved(x, SessionReleased, at)))]
  }

  /** The lease of a termination that may complete. */
  function CompletionGate(s: State, leaseId: Token, expected: nat, key: Token, digest: Token): Result<Lease> {
    if key == 0 || digest == 0 || expected == 0 then Err(InvalidArgument) else
    var lease :- FindLease(s, leaseId);
    if lease.termination.Terminal() then Err(IdempotencyConflict) else
    if !lease.termination.InProgress() then Err(FailedPrecondition) else
    if lease.termination.completeKey != 0 || lease.termination.completeDigest != 0 then Err(IdempotencyConflict) else
    if lease.revision != expected then Err(RevisionConflict) else
    if !LeaseWorkDone(s, leaseId) then Err(FailedPrecondition) else
    if lease.identity.sessionId !in s.sessions || lease.identity.agentId !in s.agents then Err(NotFound) else
    Ok(lease)
  }

  function CompleteTermination(s: State, leaseId: Token, expected: nat, key: Token, digest: Token,
      env: Env): Result<seq<Control>>
  {
    var lease :- CompletionGate(s, leaseId, expected, key, digest);
    var session := s.sessions[lease.identity.sessionId];
    var targets :- RetireTargets(s, TargetIdsOf(s, leaseId), env.stamp);
    var retired :- RetireAgent(s.agents[lease.identity.agentId], env.stamp);
    if !LeaseStep(lease.state, Completed(lease, key, digest, env.stamp).state) then Err(InvalidTransition) else
    if !SessionStep(session.state, SessionReleased) then Err(InvalidTransition) else
    Ok(targets + (retired + Closing(session, lease, key, digest, env.stamp)))
  }

  function CompleteRelease(s: State, leaseId: Token, expected: nat, reason: Token, key: Token, digest: Token,
      env: Env): Outcome
  {
    Concluded(
      var lease :- FindLease(s, leaseId);
      if !lease.termination.kind.ReleaseKind? || lease.termination.reason != reason then Err(IdempotencyConflict) else
      CompleteTermination(s, leaseId, expected, key, digest, env))
  }

  // ------------------------------------------------------------------- commands

  datatype OwnerCommand =
    | AcquireCommand(key: Token, owner: Token, provenance: Provenance, ttl: nat)
    | RenewCommand(leaseId: Token, expected: nat, ttl: nat)
    | TransitionAgentCommand(agentId: Token, generation: nat, expected: nat, state: AgentState)
    | BindAgentPlanCommand(agentId: Token, generation: nat, expected: nat, binding: AgentBinding)

  datatype ExecCommand =
    | CreateExecCommand(leaseId: Token, command: Token)
    | TransitionExecCommand(execId: Token, expected: nat, state: ExecState)
    | FinalizeExecCommand(execId: Token, expected: nat, state: ExecState, outcome: ExecOutcome, incidentIds: seq<Token>)

  datatype TargetCommand =
    | CreateTargetCommand(leaseId: Token, key: Token, template: Token, kind: Token, policy: Token, capability: Token)
    | TransitionTargetGenCommand(targetId: Token, generation: nat, expected: nat, state: TargetState)
    | BindTargetPlanCommand(targetId: Token, generation: nat, expected: nat, binding: Binding)
    | ResetTargetCommand(targetId: Token, expected: nat, recoveryIncident: Token)
    | QuarantineTargetCommand(targetId: Token, expected: nat, evidenceTarget: Token, evidenceGeneration: nat)

  datatype RunCommand =
    | StartRunCommand(targetId: Token, materialization: Token)
    | BindRunPlanCommand(targetId: Token, runId: Token, expected: nat, binding: Binding)
    | TransitionRunCommand(targetId: Token, runId: Token, expected: nat, state: RunState)
    | FinalizeRunCommand(targetId: Token, runId: Token, expected: nat, failed: bool, bundle: Bundle,
        incidentIds: seq<Token>)
    | CreateOperationCommand(targetId: Token, runId: Token, description: Token)
    | TransitionOperationCommand(targetId: Token, operationId: Token, expected: nat, operationState: OperationState)

  datatype IncidentCommand =
    | CreateIncidentCommand(identity: IncidentIdentity, evidence: Evidence)
    | TransitionIncidentCommand(incidentId: Token, expected: nat, state: IncidentState, actions: set<Action>,
                                acknowledgements: set<Token>, completion: bool)
    | RecoverIncidentCommand(incidentId: Token, expected: nat, resource: Resource, strategy: Token,
        acknowledgement: Token)
    | SealRunIncidentsCommand(targetId: Token, runId: Token, bundleId: Token, artifact: Artifact,
        incidentIds: seq<Token>)

  datatype TerminationCommand =
    | BeginReleaseCommand(leaseId: Token, expected: nat, reason: Token, key: Token, digest: Token)
    | BeginExpiryCommand(leaseId: Token, expected: nat, key: Token, digest: Token)
    | CompleteReleaseCommand(leaseId: Token, expected: nat, reason: Token, key: Token, digest: Token)
    | CompleteTerminationCommand(leaseId: Token, expected: nat, key: Token, digest: Token)

  datatype Command =
    | Owner(owner: OwnerCommand)
    | OnExec(exec: ExecCommand)
    | OnTarget(target: TargetCommand)
    | OnRun(run: RunCommand)
    | OnIncident(incident: IncidentCommand)
    | Terminating(termination: TerminationCommand)

  function HandleOwner(s: State, c: OwnerCommand, env: Env): Outcome {
    match c
    case AcquireCommand(key, owner, provenance, ttl) => Acquire(s, key, owner, provenance, ttl, env)
    case RenewCommand(leaseId, expected, ttl) => RenewLease(s, leaseId, expected, ttl, env)
    case TransitionAgentCommand(id, generation, expected, state) =>
        TransitionAgent(s, id, generation, expected, state, env)
    case BindAgentPlanCommand(id, generation, expected, binding) =>
        BindAgentPlan(s, id, generation, expected, binding, env)
  }

  function HandleExec(s: State, c: ExecCommand, env: Env): Outcome {
    match c
    case CreateExecCommand(leaseId, command) => CreateExec(s, leaseId, command, env)
    case TransitionExecCommand(id, expected, state) => TransitionExec(s, id, expected, state, env)
    case FinalizeExecCommand(id, expected, state, outcome, ids) =>
        FinalizeExec(s, id, expected, state, outcome, ids, env)
  }

  function HandleTarget(s: State, c: TargetCommand, env: Env): Outcome {
    match c
    case CreateTargetCommand(leaseId, key, template, kind, policy, capability) =>
      CreateTarget(s, leaseId, key, template, kind, policy, capability, env)
    case TransitionTargetGenCommand(id, generation, expected, state) =>
        TransitionTargetGen(s, id, generation, expected, state, env)
    case BindTargetPlanCommand(id, generation, expected, binding) =>
        BindTargetPlan(s, id, generation, expected, binding, env)
    case ResetTargetCommand(id, expected, incidentId) => ResetTarget(s, id, expected, incidentId, env)
    case QuarantineTargetCommand(id, expected, evidenceTarget, evidenceGeneration) =>
      QuarantineTarget(s, id, expected, evidenceTarget, evidenceGeneration, env)
  }

  function HandleRun(s: State, c: RunCommand, env: Env): Outcome {
    match c
    case StartRunCommand(id, materialization) => StartRun(s, id, materialization, env)
    case BindRunPlanCommand(id, runId, expected, binding) => BindRunPlan(s, id, runId, expected, binding, env)
    case TransitionRunCommand(id, runId, expected, state) => TransitionRun(s, id, runId, expected, state, env)
    case FinalizeRunCommand(id, runId, expected, failed, bundle, ids) =>
        FinalizeRun(s, id, runId, expected, failed, bundle, ids, env)
    case CreateOperationCommand(id, runId, description) => CreateOperation(s, id, runId, description, env)
    case TransitionOperationCommand(id, operationId, expected, state) =>
        TransitionOperation(s, id, operationId, expected, state, env)
  }

  function HandleIncident(s: State, c: IncidentCommand, env: Env): Outcome {
    match c
    case CreateIncidentCommand(identity, evidence) => CreateIncident(s, identity, evidence, env)
    case TransitionIncidentCommand(id, expected, state, actions, acknowledgements, completion) =>
      TransitionIncident(s, id, expected, state, actions, acknowledgements, completion, env)
    case RecoverIncidentCommand(id, expected, resource, strategy, acknowledgement) =>
      RecoverIncident(s, id, expected, resource, strategy, acknowledgement, env)
    case SealRunIncidentsCommand(id, runId, bundleId, artifact, ids) =>
        SealRunIncidents(s, id, runId, bundleId, artifact, ids, env)
  }

  function HandleTermination(s: State, c: TerminationCommand, env: Env): Outcome {
    match c
    case BeginReleaseCommand(leaseId, expected, reason, key, digest) =>
        BeginRelease(s, leaseId, expected, reason, key, digest, env)
    case BeginExpiryCommand(leaseId, expected, key, digest) => BeginExpiry(s, leaseId, expected, key, digest, env)
    case CompleteReleaseCommand(leaseId, expected, reason, key, digest) =>
      CompleteRelease(s, leaseId, expected, reason, key, digest, env)
    case CompleteTerminationCommand(leaseId, expected, key, digest) =>
      Concluded(CompleteTermination(s, leaseId, expected, key, digest, env))
  }

  /** The records a command appends in the given projection, or why it is refused. */
  function Handle(s: State, c: Command, env: Env): Outcome {
    match c
    case Owner(c) => HandleOwner(s, c, env)
    case OnExec(c) => HandleExec(s, c, env)
    case OnTarget(c) => HandleTarget(s, c, env)
    case OnRun(c) => HandleRun(s, c, env)
    case OnIncident(c) => HandleIncident(s, c, env)
    case Terminating(c) => HandleTermination(s, c, env)
  }
}
