/** The projection of any journal that replay accepts, whoever wrote it, is coherent by itself:
    what a record refers to is recorded and refers back, elements are numbered or have
    identities of their own, and a terminated lease says when and why. */
module References {
  import opened States
  import opened Records
  import opened Replay
  import opened Invariant
  import opened Histories

  // ---------------------------------------------------------------------- what is coherent

  ghost predicate CoherentSession(t: State, id: Token)
    requires id in t.sessions
  {
    var v := t.sessions[id];
    && v.id == id != 0 && v.identity.owner != 0 && v.identity.acquisitionKey != 0 && v.identity.leaseId != 0
    && v.identity.agentId != 0 && v.revision >= 1 && 0 < v.identity.createdAt <= v.updatedAt
  }

  /** A release begins before the lease expires and an expiry afterwards; a termination in
      progress is the latest revision of its lease, and its completion the next. */
  predicate CoherentTermination(v: Lease) {
    var e := v.termination;
    match e.state
    case NotTerminating =>
      e == NO_TERMINATION && !v.state.LeaseReleasing? && !v.state.LeaseReleased? && !v.state.LeaseExpired?
    case TerminationReleasing =>
      e.kind.ReleaseKind? && v.state.LeaseReleasing? && e.initiatedAt < v.expiresAt && v.revision == e.initiatedRevision
    case TerminationReleased =>
      && e.kind.ReleaseKind? && v.state.LeaseReleased? && e.initiatedAt < v.expiresAt
      && v.revision == e.initiatedRevision + 1 && e.initiatedAt <= e.completedAt == v.updatedAt
    case TerminationExpiring =>
      e.kind.ExpiryKind? && v.state.LeaseActive? && v.expiresAt <= e.initiatedAt && v.revision == e.initiatedRevision
    case TerminationExpired =>
      && e.kind.ExpiryKind? && v.state.LeaseExpired? && v.expiresAt <= e.initiatedAt
      && v.revision == e.initiatedRevision + 1 && e.initiatedAt <= e.completedAt == v.updatedAt
  }

  /** A lease and its session name each other; the agent workspace of both, once recorded, is
      at most one generation ahead. */
  ghost predicate CoherentLease(t: State, id: Token)
    requires id in t.leases
  {
    var v := t.leases[id];
    && v.id == id && v.revision >= 1 && v.agentGeneration >= 1
    && v.identity.createdAt < v.expiresAt && CoherentTermination(v)
    && v.identity.sessionId in t.sessions
    && (var x := t.sessions[v.identity.sessionId].identity;
        x.leaseId == id && x.agentId == v.identity.agentId && x.provenance == v.identity.provenance)
    && (v.identity.agentId in t.agents && t.agents[v.identity.agentId].sessionId == v.identity.sessionId ==>
          v.agentGeneration <= |t.agents[v.identity.agentId].generations| <= v.agentGeneration + 1)
  }

  ghost predicate CoherentAgent(t: State, id: Token)
    requires id in t.agents
  {
    var v := t.agents[id];
    && v.id == id && v.revision >= 1 && 1 <= v.current == |v.generations|
    && (forall i | 0 <= i < |v.generations| ::
          var g := v.generations[i];
          && g.identity.generation == i + 1 && g.identity.previous == i && g.identity.workspaceId != 0
          && g.revision >= 1 && (g.binding.Empty() || g.binding.Complete())
          && g.identity.createdAt <= g.updatedAt <= v.updatedAt)
    && (forall i, j | 0 <= i < j < |v.generations| ::
          v.generations[i].identity.workspaceId != v.generations[j].identity.workspaceId)
    && v.sessionId in t.sessions && t.sessions[v.sessionId].identity.agentId == id
    && t.sessions[v.sessionId].identity.leaseId in t.leases
    && (var l := t.leases[t.sessions[v.sessionId].identity.leaseId].identity;
        && l.agentId == id && l.sessionId == v.sessionId
        && forall i | 0 <= i < |v.generations| :: v.generations[i].identity.provenance == l.provenance)
  }

  ghost predicate HasGeneration(t: State, agentId: Token, sessionId: Token, generation: nat) {
    && agentId in t.agents && t.agents[agentId].sessionId == sessionId
    && 1 <= generation <= |t.agents[agentId].generations|
  }

  /** The lease and the session of a piece of work belong together. */
  ghost predicate Paired(t: State, sessionId: Token, leaseId: Token) {
    && sessionId in t.sessions && leaseId in t.leases
    && t.sessions[sessionId].identity.leaseId == leaseId && t.leases[leaseId].identity.sessionId == sessionId
  }

  ghost predicate CoherentExec(t: State, id: Token)
    requires id in t.execs
  {
    var v := t.execs[id];
    var i := v.identity;
    && v.id == id && v.revision >= 1 && i.command != 0 && Paired(t, i.sessionId, i.leaseId)
    && t.leases[i.leaseId].identity.agentId == i.agentId && HasGeneration(t, i.agentId, i.sessionId, i.agentGeneration)
    && (v.state.ExecCompleted? ==> v.outcome.exitCode == Some(0) && v.outcome.cleanupConfirmed)
    && (forall k | k in v.incidentIds ::
          && k in t.incidents && t.incidents[k].identity.execId == id
          && t.incidents[k].identity.sessionId == i.sessionId)
  }

  ghost predicate CoherentRun(t: State, v: Target, r: Run) {
    && r.id != 0 && r.revision >= 1 && 1 <= r.identity.generation <= |v.generations|
    && (r.binding.Empty() || r.binding.Complete())
    && HasGeneration(t, r.identity.agentId, v.identity.sessionId, r.identity.agentGeneration)
    && (r.bundle.artifact != 0 ==> r.bundle.id != 0) && (r.bundle.artifact == 0 <==> r.bundle.digest == 0)
    && (r.state.RunCompleted? || r.state.RunFailed? ==> r.bundle.id != 0)
    && (forall k | k in r.incidentIds ::
          && k in t.incidents && t.incidents[k].identity.targetId == v.id && t.incidents[k].identity.runId == r.id
          && t.incidents[k].identity.targetGeneration == r.identity.generation)
  }

  /** An operation belongs to a run of its target, on the same realization. */
  predicate CoherentOperation(v: Target, o: Operation) {
    && o.id != 0 && o.revision >= 1 && o.identity.description != 0
    && exists r :: r in v.runs && r.id == o.identity.runId && r.identity.generation == o.identity.generation
  }

  ghost predicate CoherentParts(v: Target) {
    && 1 <= v.current == |v.generations|
    && (forall i | 0 <= i < |v.generations| ::
          var g := v.generations[i];
          && g.identity.generation == i + 1 && g.identity.previous == i && g.revision >= 1
          && (g.binding.Empty() || g.binding.Complete()) && g.identity.createdAt <= g.updatedAt <= v.updatedAt)
    && (forall i, j | 0 <= i < j < |v.runs| :: v.runs[i].id != v.runs[j].id)
    && (forall i, j | 0 <= i < j < |v.operations| :: v.operations[i].id != v.operations[j].id)
    && (forall o | o in v.operations :: CoherentOperation(v, o))
  }

  ghost predicate CoherentTarget(t: State, id: Token)
    requires id in t.targets
  {
    var v := t.targets[id];
    && v.id == id && v.revision >= 1 && CoherentParts(v) && Paired(t, v.identity.sessionId, v.identity.leaseId)
    && forall r | r in v.runs :: CoherentRun(t, v, r)
  }

  /** The run that an incident names. */
  ghost predicate NamesRun(v: Target, i: IncidentIdentity) {
    exists r :: r in v.runs && r.id == i.runId && r.identity.generation == i.targetGeneration
  }

  ghost predicate CoherentIncident(t: State, id: Token)
    requires id in t.incidents
  {
    var v := t.incidents[id];
    var i := v.identity;
    && v.id == id && v.revision >= 1 && i.detail != 0 && i.sessionId in t.sessions
    && (i.leaseId != 0 ==> Paired(t, i.sessionId, i.leaseId))
    && (i.agentId != 0 ==> i.agentId in t.agents && t.agents[i.agentId].sessionId == i.sessionId)
    && (i.agentGeneration != 0 ==> HasGeneration(t, i.agentId, i.sessionId, i.agentGeneration))
    && (i.execId != 0 ==>
          && i.execId in t.execs && t.execs[i.execId].identity.sessionId == i.sessionId
          && t.execs[i.execId].identity.agentId == i.agentId)
    && (i.targetId != 0 ==> i.targetId in t.targets && t.targets[i.targetId].identity.sessionId == i.sessionId)
    && (i.runId != 0 ==> i.targetId in t.targets && NamesRun(t.targets[i.targetId], i))
    && (!v.state.IncidentOpen? ==> v.evidence.bundleId != 0 || v.evidence.artifacts != [])
    && (v.state.IncidentRecovering? ==> v.recoveryActions != {} && v.acknowledgements != {})
  }

  ghost predicate CoherentOwners(t: State) {
    && (forall id | id in t.sessions :: CoherentSession(t, id)) && (forall id | id in t.leases :: CoherentLease(t, id))
    && (forall id | id in t.agents :: CoherentAgent(t, id))
  }

  ghost predicate CoherentWork(t: State) {
    && (forall id | id in t.execs :: CoherentExec(t, id)) && (forall id | id in t.targets :: CoherentTarget(t, id))
    && (forall id | id in t.incidents :: CoherentIncident(t, id))
  }

  ghost predicate Coherent(t: State) { CoherentOwners(t) && CoherentWork(t) }

  // ------------------------------------------------------------------- a record by itself

  lemma AcceptedTermination(v: Lease)
    requires ValidLease(v)
    ensures CoherentTermination(v)
  {}

  lemma AcceptedAgent(s: State, v: Agent)
    requires AcceptsAgent(s, v)
    ensures CoherentAgent(Put(s, AgentBody(v)), v.id)
  {}

  lemma AcceptedExec(s: State, v: Exec)
    requires AcceptsExec(s, v)
    ensures CoherentExec(Put(s, ExecBody(v)), v.id)
  {}

  lemma ValidParts(v: Target)
    requires ValidTarget(v)
    ensures CoherentParts(v)
  {
    forall o | o in v.operations ensures CoherentOperation(v, o) {
      var k :| 0 <= k < |v.operations| && v.operations[k] == o;
      assert ValidOperation(v, v.operations[k]);
      assert v.runs[RunIndex(v.runs, o.identity.runId)] in v.runs;
    }
  }

  lemma AcceptedTarget(s: State, v: Target)
    requires AcceptsTarget(s, v)
    ensures CoherentTarget(Put(s, TargetBody(v)), v.id)
  {
    ValidParts(v);
    forall r | r in v.runs ensures CoherentRun(Put(s, TargetBody(v)), v, r) {
      var k :| 0 <= k < |v.runs| && v.runs[k] == r;
      assert ValidRun(v, v.runs[k]) && LinkedRun(s, v, v.runs[k]);
    }
  }

  lemma AcceptedIncident(s: State, v: Incident)
    requires AcceptsIncident(s, v)
    ensures CoherentIncident(Put(s, IncidentBody(v)), v.id)
  {
    var i := v.identity;
    if i.runId != 0 {
      var t := s.targets[i.targetId];
      assert t.runs[RunIndex(t.runs, i.runId)] in t.runs;
    }
  }

  // -------------------------------------------------------------- what later records keep

  lemma OwnedStays(s: State, t: State, sessionId: Token, leaseId: Token)
    requires Paired(s, sessionId, leaseId)
    requires SessionsContinue(s.sessions, t.sessions) && LeasesContinue(s.leases, t.leases)
    ensures Paired(t, sessionId, leaseId)
  {}

  lemma GenerationStays(s: State, t: State, agentId: Token, sessionId: Token, generation: nat)
    requires HasGeneration(s, agentId, sessionId, generation) && AgentsContinue(s.agents, t.agents)
    ensures HasGeneration(t, agentId, sessionId, generation)
  {}

  lemma AgentStays(s: State, t: State, id: Token)
    requires id in s.agents && CoherentAgent(s, id) && Continues(s, t) && t.agents[id] == s.agents[id]
    ensures CoherentAgent(t, id)
  {}

  lemma ExecStays(s: State, t: State, id: Token)
    requires id in s.execs && CoherentExec(s, id) && Continues(s, t) && t.execs[id] == s.execs[id]
    ensures CoherentExec(t, id)
  {
    var i := s.execs[id].identity;
    OwnedStays(s, t, i.sessionId, i.leaseId);
    GenerationStays(s, t, i.agentId, i.sessionId, i.agentGeneration);
  }

  lemma RunStays(s: State, t: State, v: Target, r: Run)
    requires CoherentRun(s, v, r) && Continues(s, t)
    ensures CoherentRun(t, v, r)
  {
    GenerationStays(s, t, r.identity.agentId, v.identity.sessionId, r.identity.agentGeneration);
  }

  lemma TargetStays(s: State, t: State, id: Token)
    requires id in s.targets && CoherentTarget(s, id) && Continues(s, t) && t.targets[id] == s.targets[id]
    ensures CoherentTarget(t, id)
  {
    var v := s.targets[id];
    OwnedStays(s, t, v.identity.sessionId, v.identity.leaseId);
    forall r | r in v.runs ensures CoherentRun(t, v, r) { RunStays(s, t, v, r); }
  }

  lemma NamedRunStays(v: Target, w: Target, i: IncidentIdentity)
    requires NamesRun(v, i) && TargetFollows(v, w)
    ensures NamesRun(w, i)
  {
    var r :| r in v.runs && r.id == i.runId && r.identity.generation == i.targetGeneration;
    assert RunGoesOn(r, w.runs);
  }

  lemma IncidentStays(s: State, t: State, id: Token)
    requires id in s.incidents && CoherentIncident(s, id) && Continues(s, t) && t.incidents[id] == s.incidents[id]
    ensures CoherentIncident(t, id)
  {
    var i := s.incidents[id].identity;
    if i.leaseId != 0 { OwnedStays(s, t, i.sessionId, i.leaseId); }
    if i.agentGeneration != 0 { GenerationStays(s, t, i.agentId, i.sessionId, i.agentGeneration); }
    if i.runId != 0 { NamedRunStays(s.targets[i.targetId], t.targets[i.targetId], i); }
  }

  // ------------------------------------------------------------------------- every journal

  lemma SessionRecorded(s: State, v: Session)
    requires CoherentOwners(s) && AcceptsSession(s, v) && Continues(s, Put(s, SessionBody(v)))
    ensures CoherentOwners(Put(s, SessionBody(v)))
  {
    var t := Put(s, SessionBody(v));
    forall id | id in t.leases ensures CoherentLease(t, id) { assert CoherentLease(s, id); }
    forall id | id in t.agents ensures CoherentAgent(t, id) { AgentStays(s, t, id); }
  }

  lemma LeaseRecordedCoherent(s: State, v: Lease)
    requires CoherentOwners(s) && AcceptsLease(s, v)
    ensures CoherentLease(Put(s, LeaseBody(v)), v.id)
  {
    AcceptedTermination(v);
    if v.identity.agentId in s.agents { assert CoherentAgent(s, v.identity.agentId); }
    if v.id in s.leases { assert CoherentLease(s, v.id); }
  }

  lemma LeaseRecorded(s: State, v: Lease)
    requires CoherentOwners(s) && AcceptsLease(s, v) && Continues(s, Put(s, LeaseBody(v)))
    ensures CoherentOwners(Put(s, LeaseBody(v)))
  {
    var t := Put(s, LeaseBody(v));
    LeaseRecordedCoherent(s, v);
    forall id | id in t.sessions ensures CoherentSession(t, id) { assert CoherentSession(s, id); }
    forall id | id in t.leases ensures CoherentLease(t, id) {
      if id != v.id { assert CoherentLease(s, id); }
    }
    forall id | id in t.agents ensures CoherentAgent(t, id) { AgentStays(s, t, id); }
  }

  lemma LeaseBesideAgent(s: State, v: Agent, id: Token)
    requires AcceptsAgent(s, v) && id in s.leases && CoherentLease(s, id)
    ensures CoherentLease(Put(s, AgentBody(v)), id)
  {}

  lemma AgentRecorded(s: State, v: Agent)
    requires CoherentOwners(s) && AcceptsAgent(s, v) && Continues(s, Put(s, AgentBody(v)))
    ensures CoherentOwners(Put(s, AgentBody(v)))
  {
    var t := Put(s, AgentBody(v));
    AcceptedAgent(s, v);
    forall id | id in t.sessions ensures CoherentSession(t, id) { assert CoherentSession(s, id); }
    forall id | id in t.leases ensures CoherentLease(t, id) { LeaseBesideAgent(s, v, id); }
    forall id | id in t.agents ensures CoherentAgent(t, id) {
      if id != v.id { AgentStays(s, t, id); }
    }
  }

  lemma OwnersAlone(s: State, t: State)
    requires CoherentOwners(s) && t.sessions == s.sessions && t.leases == s.leases && t.agents == s.agents
    ensures CoherentOwners(t)
  {
    forall id | id in t.sessions ensures CoherentSession(t, id) { assert CoherentSession(s, id); }
    forall id | id in t.leases ensures CoherentLease(t, id) { assert CoherentLease(s, id); }
    forall id | id in t.agents ensures CoherentAgent(t, id) { assert CoherentAgent(s, id); }
  }

  lemma OwnersRecorded(s: State, c: Control)
    requires CoherentOwners(s) && Accepts(s, c) && Continues(s, Put(s, c.body))
    ensures CoherentOwners(Put(s, c.body))
  {
    match c.body
    case SessionBody(v) => SessionRecorded(s, v);
    case LeaseBody(v) => LeaseRecorded(s, v);
    case AgentBody(v) => AgentRecorded(s, v);
    case _ => OwnersAlone(s, Put(s, c.body));
  }

  lemma ExecsStay(s: State, t: State)
    requires CoherentWork(s) && Continues(s, t)
    requires forall id | id in t.execs :: (id in s.execs && t.execs[id] == s.execs[id]) || CoherentExec(t, id)
    ensures forall id | id in t.execs :: CoherentExec(t, id)
  {
    forall id | id in t.execs ensures CoherentExec(t, id) {
      if id in s.execs && t.execs[id] == s.execs[id] { ExecStays(s, t, id); }
    }
  }

  lemma TargetsStay(s: State, t: State)
    requires CoherentWork(s) && Continues(s, t)
    requires forall id | id in t.targets :: (id in s.targets && t.targets[id] == s.targets[id]) || CoherentTarget(t, id)
    ensures forall id | id in t.targets :: CoherentTarget(t, id)
  {
    forall id | id in t.targets ensures CoherentTarget(t, id) {
      if id in s.targets && t.targets[id] == s.targets[id] { TargetStays(s, t, id); }
    }
  }

  lemma IncidentsStay(s: State, t: State)
    requires CoherentWork(s) && Continues(s, t)
    requires forall id | id in t.incidents ::
               (id in s.incidents && t.incidents[id] == s.incidents[id]) || CoherentIncident(t, id)
    ensures forall id | id in t.incidents :: CoherentIncident(t, id)
  {
    forall id | id in t.incidents ensures CoherentIncident(t, id) {
      if id in s.incidents && t.incidents[id] == s.incidents[id] { IncidentStays(s, t, id); }
    }
  }

  lemma WorkStays(s: State, t: State)
    requires CoherentWork(s) && Continues(s, t)
    requires forall id | id in t.execs :: (id in s.execs && t.execs[id] == s.execs[id]) || CoherentExec(t, id)
    requires forall id | id in t.targets :: (id in s.targets && t.targets[id] == s.targets[id]) || CoherentTarget(t, id)
    requires forall id | id in t.incidents ::
               (id in s.incidents && t.incidents[id] == s.incidents[id]) || CoherentIncident(t, id)
    ensures CoherentWork(t)
  {
    ExecsStay(s, t);
    TargetsStay(s, t);
    IncidentsStay(s, t);
  }

  lemma ExecRecorded(s: State, v: Exec)
    requires CoherentWork(s) && AcceptsExec(s, v) && Continues(s, Put(s, ExecBody(v)))
    ensures CoherentWork(Put(s, ExecBody(v)))
  {
    AcceptedExec(s, v);
    WorkStays(s, Put(s, ExecBody(v)));
  }

  lemma TargetRecorded(s: State, v: Target)
    requires CoherentWork(s) && AcceptsTarget(s, v) && Continues(s, Put(s, TargetBody(v)))
    ensures CoherentWork(Put(s, TargetBody(v)))
  {
    AcceptedTarget(s, v);
    WorkStays(s, Put(s, TargetBody(v)));
  }

  lemma IncidentRecorded(s: State, v: Incident)
    requires CoherentWork(s) && AcceptsIncident(s, v) && Continues(s, Put(s, IncidentBody(v)))
    ensures CoherentWork(Put(s, IncidentBody(v)))
  {
    AcceptedIncident(s, v);
    WorkStays(s, Put(s, IncidentBody(v)));
  }

  lemma WorkAlone(s: State, t: State)
    requires CoherentWork(s) && Continues(s, t)
    requires t.execs == s.execs && t.targets == s.targets && t.incidents == s.incidents
    ensures CoherentWork(t)
  {
    WorkStays(s, t);
  }

  lemma WorkRecorded(s: State, c: Control)
    requires CoherentWork(s) && Accepts(s, c) && Continues(s, Put(s, c.body))
    ensures CoherentWork(Put(s, c.body))
  {
    match c.body
    case ExecBody(v) => ExecRecorded(s, v);
    case TargetBody(v) => TargetRecorded(s, v);
    case IncidentBody(v) => IncidentRecorded(s, v);
    case _ => WorkAlone(s, Put(s, c.body));
  }

  lemma RecordedCoherent(s: State, c: Control)
    requires Coherent(s) && Accepts(s, c)
    ensures Coherent(Put(s, c.body))
  {
    AcceptedContinues(s, c);
    OwnersRecorded(s, c);
    WorkRecorded(s, c);
  }

  /** Whatever is in a journal: if replay accepts it, what it leads to is coherent. */
  lemma {:induction false} JournalCoherent(journal: seq<Control>)
    requires Replayed(EMPTY, journal).Some?
    ensures Coherent(Replayed(EMPTY, journal).value)
    decreases |journal|
  {
    if journal != [] {
      JournalCoherent(journal[..|journal| - 1]);
      RecordedCoherent(Replayed(EMPTY, journal[..|journal| - 1]).value, journal[|journal| - 1]);
    }
  }
}
