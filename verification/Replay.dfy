/** Replay of the control journal. Every record is validated as untrusted data,
    on its own, against the other aggregates, and against its own previous
    revision, before it enters the projection. */
module Replay {
  import opened States
  import opened Records

  // ----------------------------------------------------------- shared conditions

  predicate OrderedTimes(created: Time, updated: Time) {
    created != 0 && updated != 0 && created <= updated
  }

  predicate ContainedTimes(parentCreated: Time, parentUpdated: Time, created: Time, updated: Time) {
    OrderedTimes(created, updated) && parentCreated <= created && updated <= parentUpdated
  }

  predicate CompleteProvenance(p: Provenance) { p.inputView != 0 && p.policy != 0 && p.capability != 0 }

  predicate ValidIncidentIds(ids: seq<Token>) { 0 !in ids && Distinct(ids) }

  predicate RevisionAdvances(previous: nat, next: nat, previousAt: Time, nextAt: Time) {
    next == previous + 1 && previousAt <= nextAt
  }

  predicate StateAdvances(previous: nat, next: nat, previousAt: Time, nextAt: Time, same: bool, legal: bool) {
    RevisionAdvances(previous, next, previousAt, nextAt) && (same || legal)
  }

  /** A nested element either keeps its revision and everything guarded by it, or advances by one. */
  predicate NestedAdvances(previous: nat, next: nat, previousAt: Time, nextAt: Time, same: bool, legal: bool) {
    if next == previous then same && previousAt == nextAt
    else StateAdvances(previous, next, previousAt, nextAt, same, legal)
  }

  predicate GenerationAdvances(previous: nat, next: nat) { previous <= next <= previous + 1 }

  predicate HasAgentGen(agent: Agent, generation: nat) {
    0 < generation <= |agent.generations| && agent.generations[generation - 1].identity.generation == generation
  }

  predicate HasTargetGen(target: Target, generation: nat) {
    0 < generation <= |target.generations| && target.generations[generation - 1].identity.generation == generation
  }

  // ------------------------------------------------------------------- sessions

  predicate ValidSession(v: Session) {
    && v.id != 0 && v.identity.leaseId != 0 && v.identity.agentId != 0
    && CompleteProvenance(v.identity.provenance)
    && v.identity.owner != 0 && v.identity.acquisitionKey != 0
    && v.revision >= 1
    && OrderedTimes(v.identity.createdAt, v.updatedAt)
  }

  predicate LinkedSession(s: State, v: Session) {
    && (v.identity.leaseId in s.leases ==>
          var lease := s.leases[v.identity.leaseId];
          lease.identity.sessionId == v.id && lease.identity.agentId == v.identity.agentId &&
          lease.identity.provenance == v.identity.provenance)
    && (v.identity.agentId in s.agents ==> s.agents[v.identity.agentId].sessionId == v.id)
  }

  predicate SessionAdvances(p: Session, v: Session) {
    p.identity == v.identity &&
    StateAdvances(p.revision, v.revision, p.updatedAt, v.updatedAt, p.state == v.state, SessionStep(p.state, v.state))
  }

  predicate AcceptsSession(s: State, v: Session) {
    && ValidSession(v)
    && (v.id in s.sessions ==> SessionAdvances(s.sessions[v.id], v))
    && LinkedSession(s, v)
  }

  // --------------------------------------------------------------------- leases

  predicate ValidTermination(v: Lease) {
    var t := v.termination;
    if t.Empty() then !v.state.LeaseReleasing? && !v.state.LeaseReleased? && !v.state.LeaseExpired?
    else
      && !t.kind.NoKind? && !t.state.NotTerminating?
      && t.reason != 0 && t.beginKey != 0 && t.beginDigest != 0
      && 2 <= t.initiatedRevision <= v.revision
      && t.initiatedAt != 0 && v.identity.createdAt <= t.initiatedAt <= v.updatedAt
      && (t.kind.ReleaseKind? ==>
            && (t.state.TerminationReleasing? || t.state.TerminationReleased?)
            && (t.state.TerminationReleasing? ==> v.state.LeaseReleasing?)
            && (t.state.TerminationReleased? ==> v.state.LeaseReleased?)
            && t.initiatedAt < v.expiresAt)
      && (t.kind.ExpiryKind? ==>
            && (t.state.TerminationExpiring? || t.state.TerminationExpired?)
            && v.expiresAt <= t.initiatedAt
            && (t.state.TerminationExpiring? ==> v.state.LeaseActive?)
            && (t.state.TerminationExpired? ==> v.state.LeaseExpired?))
      && (if t.Terminal() then
            && t.completeKey != 0 && t.completeDigest != 0
            && t.completedAt != 0 && t.initiatedAt <= t.completedAt && t.completedAt == v.updatedAt
            && v.revision == t.initiatedRevision + 1
          else
            && t.completeKey == 0 && t.completeDigest == 0 && t.completedAt == 0
            && v.revision == t.initiatedRevision)
  }

  predicate ValidLease(v: Lease) {
    && v.id != 0 && v.identity.sessionId != 0 && v.identity.agentId != 0
    && CompleteProvenance(v.identity.provenance)
    && v.agentGeneration >= 1
    && v.identity.createdAt < v.expiresAt
    && v.revision >= 1
    && ValidTermination(v)
    && OrderedTimes(v.identity.createdAt, v.updatedAt)
  }

  predicate LinkedLease(s: State, v: Lease) {
    && v.identity.sessionId in s.sessions
    && (var session := s.sessions[v.identity.sessionId];
        session.identity.leaseId == v.id && session.identity.agentId == v.identity.agentId &&
        session.identity.provenance == v.identity.provenance)
    && (v.identity.agentId in s.agents ==>
          var agent := s.agents[v.identity.agentId];
          agent.sessionId == v.identity.sessionId && v.agentGeneration <= agent.current &&
          HasAgentGen(agent, v.agentGeneration))
  }

  predicate TerminationAdvances(p: Termination, n: Termination) {
    if p.Empty() then n.Empty() || n.InProgress()
    else
      && !n.Empty()
      && p.kind == n.kind && p.reason == n.reason && p.beginKey == n.beginKey && p.beginDigest == n.beginDigest
      && p.initiatedRevision == n.initiatedRevision && p.initiatedAt == n.initiatedAt
      && !p.Terminal()
      && n.state == (if p.state.TerminationExpiring? then TerminationExpired else TerminationReleased)
  }

  predicate LeaseAdvances(p: Lease, v: Lease) {
    && p.identity == v.identity
    && GenerationAdvances(p.agentGeneration, v.agentGeneration)
    && p.expiresAt <= v.expiresAt
    && (!v.termination.Empty() ==> v.expiresAt == p.expiresAt && v.agentGeneration == p.agentGeneration)
    && TerminationAdvances(p.termination, v.termination)
    && StateAdvances(p.revision, v.revision, p.updatedAt, v.updatedAt, p.state == v.state, LeaseStep(p.state, v.state))
  }

  predicate AcceptsLease(s: State, v: Lease) {
    && ValidLease(v)
    && LinkedLease(s, v)
    && (if v.id in s.leases then LeaseAdvances(s.leases[v.id], v)
        else v.revision == 1 && v.state.LeaseActive? && v.termination.Empty())
  }

  // ----------------------------------------------------------- agent workspaces

  predicate ValidAgentGen(v: Agent, g: AgentGen) {
    && g.identity.workspaceId != 0
    && CompleteProvenance(g.identity.provenance)
    && (g.binding.Empty() || g.binding.Complete())
    && (if g.identity.generation == 1 then g.identity.previous == 0 && g.identity.recoveryIncident == 0
        else g.identity.previous + 1 == g.identity.generation)
    && g.revision >= 1
    && ContainedTimes(v.createdAt, v.updatedAt, g.identity.createdAt, g.updatedAt)
  }

  predicate ValidAgent(v: Agent) {
    && v.id != 0 && v.sessionId != 0
    && v.revision >= 1
    && OrderedTimes(v.createdAt, v.updatedAt)
    && v.current != 0 && |v.generations| == v.current
    && (forall i | 0 <= i < |v.generations| ::
          v.generations[i].identity.generation == i + 1 && ValidAgentGen(v, v.generations[i]))
    && (forall i, j | 0 <= i < j < |v.generations| ::
          v.generations[i].identity.workspaceId != v.generations[j].identity.workspaceId)
  }

  predicate LinkedAgent(s: State, v: Agent) {
    && v.sessionId in s.sessions
    && (var session := s.sessions[v.sessionId];
        && session.identity.agentId == v.id
        && session.identity.leaseId in s.leases
        && (var lease := s.leases[session.identity.leaseId];
            && lease.identity.agentId == v.id && lease.identity.sessionId == v.sessionId
            && lease.agentGeneration <= v.current <= lease.agentGeneration + 1
            && (forall i | 0 <= i < |v.generations| ::
                  v.generations[i].identity.provenance == lease.identity.provenance)))
  }

  predicate AgentGenAdvances(p: AgentGen, v: AgentGen) {
    && p.identity == v.identity
    && (p.binding == v.binding || (p.binding.Empty() && v.binding.Complete()))
    && NestedAdvances(p.revision, v.revision, p.updatedAt, v.updatedAt, p.state == v.state, AgentStep(p.state, v.state))
  }

  predicate AgentAdvances(p: Agent, v: Agent) {
    && p.sessionId == v.sessionId && p.createdAt == v.createdAt
    && GenerationAdvances(p.current, v.current)
    && RevisionAdvances(p.revision, v.revision, p.updatedAt, v.updatedAt)
    && |p.generations| <= |v.generations| <= |p.generations| + 1
    && (forall i | 0 <= i < |p.generations| :: AgentGenAdvances(p.generations[i], v.generations[i]))
  }

  predicate AcceptsAgent(s: State, v: Agent) {
    && ValidAgent(v)
    && LinkedAgent(s, v)
    && (v.id in s.agents ==> AgentAdvances(s.agents[v.id], v))
  }

  // ---------------------------------------------------------------------- execs

  predicate ValidExec(v: Exec) {
    && v.id != 0 && v.identity.sessionId != 0 && v.identity.leaseId != 0 && v.identity.agentId != 0
    && v.identity.command != 0 && v.identity.agentGeneration >= 1
    && v.revision >= 1
    && OrderedTimes(v.identity.createdAt, v.updatedAt)
    && (v.state.ExecCompleted? ==> v.outcome.exitCode == Some(0) && v.outcome.cleanupConfirmed)
    && ValidIncidentIds(v.incidentIds)
  }

  predicate LinkedExecIncident(s: State, v: Exec, incidentId: Token) {
    && incidentId in s.incidents
    && (var i := s.incidents[incidentId].identity;
        i.sessionId == v.identity.sessionId && i.leaseId == v.identity.leaseId &&
        i.agentId == v.identity.agentId && i.agentGeneration == v.identity.agentGeneration && i.execId == v.id)
  }

  predicate LinkedExec(s: State, v: Exec) {
    && v.identity.sessionId in s.sessions && v.identity.leaseId in s.leases && v.identity.agentId in s.agents
    && s.sessions[v.identity.sessionId].identity.leaseId == v.identity.leaseId
    && s.leases[v.identity.leaseId].identity.sessionId == v.identity.sessionId
    && s.leases[v.identity.leaseId].identity.agentId == v.identity.agentId
    && s.agents[v.identity.agentId].sessionId == v.identity.sessionId
    && HasAgentGen(s.agents[v.identity.agentId], v.identity.agentGeneration)
    && (forall k | 0 <= k < |v.incidentIds| :: LinkedExecIncident(s, v, v.incidentIds[k]))
  }

  predicate ExecAdvances(p: Exec, v: Exec) {
    p.identity == v.identity &&
    StateAdvances(p.revision, v.revision, p.updatedAt, v.updatedAt, p.state == v.state, ExecStep(p.state, v.state))
  }

  predicate AcceptsExec(s: State, v: Exec) {
    && ValidExec(v)
    && LinkedExec(s, v)
    && (v.id in s.execs ==> ExecAdvances(s.execs[v.id], v))
  }

  // -------------------------------------------------------------------- targets

  predicate ValidTargetGen(v: Target, g: TargetGen) {
    && g.identity.policy != 0 && g.identity.capability != 0
    && (if g.identity.generation == 1 then g.identity.previous == 0 && g.identity.recoveryIncident == 0
        else g.identity.previous + 1 == g.identity.generation)
    && g.revision >= 1
    && (g.binding.Empty() || g.binding.Complete())
    && ContainedTimes(v.identity.createdAt, v.updatedAt, g.identity.createdAt, g.updatedAt)
  }

  predicate ValidRun(v: Target, r: Run) {
    && r.id != 0
    && 1 <= r.identity.generation <= v.current
    && r.identity.agentId != 0 && r.identity.agentGeneration >= 1 && r.identity.materialization != 0
    && r.revision >= 1
    && (r.binding.Empty() || r.binding.Complete())
    && ContainedTimes(v.identity.createdAt, v.updatedAt, r.identity.createdAt, r.updatedAt)
    && (r.bundle.artifact == 0 <==> r.bundle.digest == 0)
    && (r.bundle.artifact != 0 ==> r.bundle.id != 0)
    && (r.state.RunCompleted? || r.state.RunFailed? ==> r.bundle.id != 0)
    && ValidIncidentIds(r.incidentIds)
  }

  predicate ValidOperation(v: Target, o: Operation) {
    && o.id != 0
    && o.identity.description != 0 && o.identity.runId != 0
    && HasRun(v.runs, o.identity.runId)
    && v.runs[RunIndex(v.runs, o.identity.runId)].identity.generation == o.identity.generation
    && o.revision >= 1
    && ContainedTimes(v.identity.createdAt, v.updatedAt, o.identity.createdAt, o.updatedAt)
  }

  predicate DistinctRuns(runs: seq<Run>) { forall i, j | 0 <= i < j < |runs| :: runs[i].id != runs[j].id }

  predicate DistinctOperations(operations: seq<Operation>) {
    forall i, j | 0 <= i < j < |operations| :: operations[i].id != operations[j].id
  }

  predicate ValidTargetHeader(v: Target) {
    && v.id != 0 && v.identity.sessionId != 0 && v.identity.leaseId != 0
    && v.identity.template != 0 && v.identity.creationKey != 0 && v.identity.kind != 0
    && v.revision >= 1
    && OrderedTimes(v.identity.createdAt, v.updatedAt)
    && v.current != 0 && |v.generations| == v.current
  }

  predicate ValidTarget(v: Target) {
    && ValidTargetHeader(v)
    && (forall i | 0 <= i < |v.generations| ::
          v.generations[i].identity.generation == i + 1 && ValidTargetGen(v, v.generations[i]))
    && (forall i | 0 <= i < |v.runs| :: ValidRun(v, v.runs[i]))
    && DistinctRuns(v.runs)
    && (forall i | 0 <= i < |v.operations| :: ValidOperation(v, v.operations[i]))
    && DistinctOperations(v.operations)
  }

  predicate LinkedRunIncident(s: State, v: Target, r: Run, incidentId: Token) {
    && incidentId in s.incidents
    && (var i := s.incidents[incidentId].identity;
        i.sessionId == v.identity.sessionId && i.targetId == v.id &&
        i.targetGeneration == r.identity.generation && i.runId == r.id)
  }

  predicate LinkedRun(s: State, v: Target, r: Run) {
    && r.identity.agentId in s.agents
    && s.agents[r.identity.agentId].sessionId == v.identity.sessionId
    && HasAgentGen(s.agents[r.identity.agentId], r.identity.agentGeneration)
    && (forall k | 0 <= k < |r.incidentIds| :: LinkedRunIncident(s, v, r, r.incidentIds[k]))
  }

  predicate LinkedTarget(s: State, v: Target) {
    && v.identity.sessionId in s.sessions && v.identity.leaseId in s.leases
    && s.sessions[v.identity.sessionId].identity.leaseId == v.identity.leaseId
    && s.leases[v.identity.leaseId].identity.sessionId == v.identity.sessionId
    && (forall i | 0 <= i < |v.runs| :: LinkedRun(s, v, v.runs[i]))
  }

  predicate TargetGenAdvances(p: TargetGen, v: TargetGen) {
    && p.identity == v.identity
    && (p.binding == v.binding || (p.binding.Empty() && v.binding.Complete()))
    && NestedAdvances(p.revision, v.revision, p.updatedAt, v.updatedAt, p.state == v.state,
        TargetStep(p.state, v.state))
  }

  predicate RunAdvances(p: Run, v: Run) {
    && p.identity == v.identity
    && (p.binding == v.binding || (p.binding.Empty() && v.binding.Complete()))
    && NestedAdvances(p.revision, v.revision, p.updatedAt, v.updatedAt, p.state == v.state, RunStep(p.state, v.state))
    && (p.revision == v.revision ==> p.bundle == v.bundle)
  }

  predicate OperationAdvances(p: Operation, v: Operation) {
    && p.identity == v.identity
    && NestedAdvances(p.revision, v.revision, p.updatedAt, v.updatedAt, p.state == v.state,
        OperationStep(p.state, v.state))
  }

  /** Every earlier run is found again, by identity, with a legal advance. */
  predicate RunHistory(previous: seq<Run>, next: seq<Run>) {
    && |previous| <= |next|
    && forall i | 0 <= i < |previous| ::
         && HasRun(next, previous[i].id)
         && RunAdvances(previous[i], next[RunIndex(next, previous[i].id)])
  }

  predicate OperationHistory(previous: seq<Operation>, next: seq<Operation>) {
    && |previous| <= |next|
    && forall i | 0 <= i < |previous| ::
         && OperationIndex(next, previous[i].id) < |next|
         && OperationAdvances(previous[i], next[OperationIndex(next, previous[i].id)])
  }

  predicate TargetAdvances(p: Target, v: Target) {
    && p.identity == v.identity
    && GenerationAdvances(p.current, v.current)
    && RevisionAdvances(p.revision, v.revision, p.updatedAt, v.updatedAt)
    && |p.generations| <= |v.generations| <= |p.generations| + 1
    && (forall i | 0 <= i < |p.generations| :: TargetGenAdvances(p.generations[i], v.generations[i]))
    && RunHistory(p.runs, v.runs)
    && OperationHistory(p.operations, v.operations)
  }

  predicate AcceptsTarget(s: State, v: Target) {
    && ValidTarget(v)
    && LinkedTarget(s, v)
    && (v.id in s.targets ==> TargetAdvances(s.targets[v.id], v))
  }

  // ------------------------------------------------------------------ incidents

  predicate ValidIncident(v: Incident) {
    && v.id != 0 && v.identity.sessionId != 0 && v.identity.detail != 0
    && (forall k | 0 <= k < |v.evidence.artifacts| ::
          v.evidence.artifacts[k].reference != 0 && v.evidence.artifacts[k].digest != 0)
    && (v.identity.execId != 0 ==> v.identity.agentId != 0 && v.identity.agentGeneration != 0)
    && (v.identity.agentGeneration != 0 ==> v.identity.agentId != 0)
    && (v.identity.targetGeneration != 0 ==> v.identity.targetId != 0)
    && (v.identity.runId != 0 ==> v.identity.targetId != 0 && v.identity.targetGeneration != 0)
    && v.revision >= 1
    && (!v.state.IncidentOpen? ==> v.evidence.bundleId != 0 || v.evidence.artifacts != [])
    && Remark(0) !in v.recoveryActions && 0 !in v.acknowledgements
    && (v.state.IncidentRecovering? ==> v.recoveryActions != {} && v.acknowledgements != {})
    && OrderedTimes(v.identity.occurredAt, v.updatedAt)
  }

  predicate LinkedIncidentRun(target: Target, i: IncidentIdentity) {
    && HasRun(target.runs, i.runId)
    && (var run := target.runs[RunIndex(target.runs, i.runId)];
        && run.identity.generation == i.targetGeneration
        && (i.agentId != 0 ==> run.identity.agentId == i.agentId && run.identity.agentGeneration == i.agentGeneration))
  }

  predicate LinkedIncident(s: State, i: IncidentIdentity) {
    && i.sessionId in s.sessions
    && (i.leaseId != 0 ==>
          && i.leaseId in s.leases
          && s.leases[i.leaseId].identity.sessionId == i.sessionId
          && s.sessions[i.sessionId].identity.leaseId == i.leaseId)
    && (i.agentId != 0 ==>
          && i.agentId in s.agents
          && s.agents[i.agentId].sessionId == i.sessionId
          && (i.agentGeneration != 0 ==> HasAgentGen(s.agents[i.agentId], i.agentGeneration)))
    && (i.execId != 0 ==>
          && i.execId in s.execs
          && (var e := s.execs[i.execId].identity;
              e.sessionId == i.sessionId && e.leaseId == i.leaseId &&
              e.agentId == i.agentId && e.agentGeneration == i.agentGeneration))
    && (i.targetId != 0 ==>
          && i.targetId in s.targets
          && (var target := s.targets[i.targetId];
              && target.identity.sessionId == i.sessionId
              && (i.leaseId != 0 ==> target.identity.leaseId == i.leaseId)
              && (i.targetGeneration != 0 ==> HasTargetGen(target, i.targetGeneration))
              && (i.runId != 0 ==> LinkedIncidentRun(target, i))))
  }

  /** Evidence changes only when an open incident is sealed, and then only by addition. */
  predicate EvidenceAdvances(p: Incident, v: Incident) {
    p.evidence == v.evidence ||
    (&& p.state.IncidentOpen? && v.state.IncidentEvidenceSealed? && v.evidence.bundleId != 0
     && (p.evidence.bundleId != 0 ==> p.evidence.bundleId == v.evidence.bundleId)
     && (forall k | 0 <= k < |p.evidence.artifacts| :: p.evidence.artifacts[k] in v.evidence.artifacts)
     && |p.evidence.artifacts| <= |v.evidence.artifacts|
     && (|p.evidence.artifacts| == |v.evidence.artifacts| ==> p.evidence.bundleId != v.evidence.bundleId))
  }

  predicate IncidentAdvances(p: Incident, v: Incident) {
    && p.identity == v.identity
    && EvidenceAdvances(p, v)
    && StateAdvances(p.revision, v.revision, p.updatedAt, v.updatedAt, p.state == v.state,
        IncidentStep(p.state, v.state))
  }

  predicate AcceptsIncident(s: State, v: Incident) {
    && ValidIncident(v)
    && LinkedIncident(s, v.identity)
    && (v.id in s.incidents ==> IncidentAdvances(s.incidents[v.id], v))
  }

  // ----------------------------------------------------------- applying records

  predicate Accepts(s: State, c: Control) {
    && c.aggregateId == c.body.Id() && c.revision == c.body.Revision()
    && match c.body
       case SessionBody(v) => AcceptsSession(s, v)
       case LeaseBody(v) => AcceptsLease(s, v)
       case AgentBody(v) => AcceptsAgent(s, v)
       case ExecBody(v) => AcceptsExec(s, v)
       case TargetBody(v) => AcceptsTarget(s, v)
       case IncidentBody(v) => AcceptsIncident(s, v)
  }

  function Put(s: State, body: Aggregate): State {
    match body
    case SessionBody(v) => s.(sessions := s.sessions[v.id := v])
    case LeaseBody(v) => s.(leases := s.leases[v.id := v])
    case AgentBody(v) => s.(agents := s.agents[v.id := v])
    case ExecBody(v) => s.(execs := s.execs[v.id := v])
    case TargetBody(v) => s.(targets := s.targets[v.id := v])
    case IncidentBody(v) => s.(incidents := s.incidents[v.id := v])
  }

  /** The projection after a journal, or nothing if some record is refused. */
  function Replayed(s: State, journal: seq<Control>): Option<State> {
    if journal == [] then Some(s)
    else
      match Replayed(s, journal[..|journal| - 1])
      case None => None
      case Some(t) =>
        var last := journal[|journal| - 1];
        if Accepts(t, last) then Some(Put(t, last.body)) else None
  }

  // ------------------------------------------------------- the store's own check

  /** The revision a projection holds for an aggregate; 0 when it holds none. */
  function Held(s: State, body: Aggregate): nat {
    match body
    case SessionBody(v) => if v.id in s.sessions then s.sessions[v.id].revision else 0
    case LeaseBody(v) => if v.id in s.leases then s.leases[v.id].revision else 0
    case AgentBody(v) => if v.id in s.agents then s.agents[v.id].revision else 0
    case ExecBody(v) => if v.id in s.execs then s.execs[v.id].revision else 0
    case TargetBody(v) => if v.id in s.targets then s.targets[v.id].revision else 0
    case IncidentBody(v) => if v.id in s.incidents then s.incidents[v.id].revision else 0
  }

  /** The latest revision of an aggregate in the journal, starting from a projection. */
  function Latest(s: State, journal: seq<Control>, body: Aggregate): nat {
    if journal == [] then Held(s, body)
    else if journal[|journal| - 1].body.SameAggregate(body) then journal[|journal| - 1].revision
    else Latest(s, journal[..|journal| - 1], body)
  }

  /** The store appends a record only as the next revision of its aggregate. */
  predicate Storable(s: State, journal: seq<Control>) {
    journal == [] ||
    (var front, last := journal[..|journal| - 1], journal[|journal| - 1];
     && Storable(s, front)
     && last.aggregateId != 0
     && last.revision == Latest(s, front, last.body) + 1)
  }
}
