/** The cross-aggregate invariant of every reachable projection, the two-state
    relation between a projection and every later one, and the lemmas that carry
    both over one appended record. */
module Invariant {
  import opened States
  import opened Records
  import opened Replay
  import opened Commands

  // ------------------------------------------------------------------ invariant

  predicate Open(lease: Lease) { lease.termination.Empty() }
  predicate Closed(lease: Lease) { lease.termination.Terminal() }

  /** The session state is a function of the lease's termination. */
  function SessionStateOf(t: Termination): SessionState {
    if t.Empty() then SessionLeased else if t.InProgress() then SessionReleasing else SessionReleased
  }

  ghost predicate SessionInv(s: State, id: Token)
    requires id in s.sessions
  {
    var v := s.sessions[id];
    && v.id == id && ValidSession(v)
    && v.identity.leaseId in s.leases && v.identity.agentId in s.agents
    && LinkedSession(s, v)
    && v.state == SessionStateOf(s.leases[v.identity.leaseId].termination)
  }

  ghost predicate LeaseInv(s: State, id: Token)
    requires id in s.leases
  {
    var v := s.leases[id];
    && v.id == id && ValidLease(v)
    && v.identity.agentId in s.agents
    && LinkedLease(s, v)
    && v.agentGeneration == s.agents[v.identity.agentId].current
    && (Open(v) ==> v.state.LeaseActive?)
  }

  ghost predicate AgentDone(a: Agent) { forall i | 0 <= i < |a.generations| :: AgentTerminal(a.generations[i].state) }

  ghost predicate AgentInv(s: State, id: Token)
    requires id in s.agents
  {
    var v := s.agents[id];
    && v.id == id && ValidAgent(v)
    && LinkedAgent(s, v)
    && (forall i | 0 <= i < |v.generations| - 1 :: AgentTerminal(v.generations[i].state))
    && (Closed(s.leases[s.sessions[v.sessionId].identity.leaseId]) ==> AgentDone(v))
  }

  predicate AgentSettled(state: AgentState) { state.AgentQuiescing? || state.AgentSealed? }

  ghost predicate ExecInv(s: State, id: Token)
    requires id in s.execs
  {
    var v := s.execs[id];
    && v.id == id && ValidExec(v)
    && LinkedExec(s, v)
    && (AgentSettled(s.agents[v.identity.agentId].generations[v.identity.agentGeneration - 1].state) ==>
        ExecTerminal(v.state))
    && (Closed(s.leases[v.identity.leaseId]) ==> ExecTerminal(v.state))
  }

  /** One live realization: past generations are terminal, a generation has at most
      one run, and a live run lies on the current generation. */
  ghost predicate TargetShape(t: Target) {
    && (forall i | 0 <= i < |t.generations| - 1 :: TargetTerminal(t.generations[i].state))
    && (forall i, j | 0 <= i < j < |t.runs| :: t.runs[i].identity.generation != t.runs[j].identity.generation)
    && (forall i | 0 <= i < |t.runs| :: t.runs[i].identity.generation != t.current ==> RunTerminal(t.runs[i].state))
  }

  ghost predicate TargetDone(t: Target) {
    TargetWorkDone(t) && forall i | 0 <= i < |t.generations| :: TargetTerminal(t.generations[i].state)
  }

  ghost predicate TargetInv(s: State, id: Token)
    requires id in s.targets
  {
    var v := s.targets[id];
    && v.id == id && ValidTarget(v)
    && LinkedTarget(s, v)
    && TargetShape(v)
    && (Closed(s.leases[v.identity.leaseId]) ==> TargetDone(v))
  }

  ghost predicate IncidentInv(s: State, id: Token)
    requires id in s.incidents
  {
    var v := s.incidents[id];
    v.id == id && ValidIncident(v) && LinkedIncident(s, v.identity)
  }

  ghost predicate SessionsInv(s: State) { forall id | id in s.sessions :: SessionInv(s, id) }
  ghost predicate LeasesInv(s: State) { forall id | id in s.leases :: LeaseInv(s, id) }
  ghost predicate AgentsInv(s: State) { forall id | id in s.agents :: AgentInv(s, id) }
  ghost predicate ExecsInv(s: State) { forall id | id in s.execs :: ExecInv(s, id) }
  ghost predicate TargetsInv(s: State) { forall id | id in s.targets :: TargetInv(s, id) }
  ghost predicate IncidentsInv(s: State) { forall id | id in s.incidents :: IncidentInv(s, id) }

  ghost predicate Inv(s: State) {
    SessionsInv(s) && LeasesInv(s) && AgentsInv(s) && ExecsInv(s) && TargetsInv(s) && IncidentsInv(s)
  }

  /** Every recorded update happened at or before a time. */
  ghost predicate Before(s: State, t: Time) {
    && (forall id | id in s.sessions :: s.sessions[id].updatedAt <= t)
    && (forall id | id in s.leases :: s.leases[id].updatedAt <= t)
    && (forall id | id in s.agents :: s.agents[id].updatedAt <= t)
    && (forall id | id in s.execs :: s.execs[id].updatedAt <= t)
    && (forall id | id in s.targets :: s.targets[id].updatedAt <= t)
    && (forall id | id in s.incidents :: s.incidents[id].updatedAt <= t)
  }

  // ------------------------------------------------------------- what never changes

  ghost predicate LeaseKept(p: Lease, v: Lease) {
    && p.identity == v.identity && p.expiresAt <= v.expiresAt
    && (!Open(p) ==> !Open(v) && v.termination.kind == p.termination.kind && v.expiresAt == p.expiresAt)
    && (p.termination.InProgress() ==> v == p || Closed(v))
    && (Closed(p) ==> v == p)
  }

  ghost predicate AgentGenKept(p: AgentGen, v: AgentGen) {
    && p.identity == v.identity
    && (AgentTerminal(p.state) ==> v.state == p.state)
    && (!p.binding.Empty() ==> v.binding == p.binding)
  }

  ghost predicate AgentKept(p: Agent, v: Agent) {
    && p.sessionId == v.sessionId && p.createdAt == v.createdAt
    && |p.generations| <= |v.generations|
    && forall i | 0 <= i < |p.generations| :: AgentGenKept(p.generations[i], v.generations[i])
  }

  ghost predicate ExecKept(p: Exec, v: Exec) {
    p.identity == v.identity && (ExecTerminal(p.state) ==> v.state == p.state && v.outcome == p.outcome)
  }

  ghost predicate TargetGenKept(p: TargetGen, v: TargetGen) {
    && p.identity == v.identity
    && (TargetTerminal(p.state) ==> v.state == p.state)
    && (!p.binding.Empty() ==> v.binding == p.binding)
  }

  ghost predicate RunKept(p: Run, v: Run) {
    && p.id == v.id && p.identity == v.identity
    && (RunTerminal(p.state) ==> v.state == p.state && v.bundle == p.bundle)
    && (!p.binding.Empty() ==> v.binding == p.binding)
  }

  ghost predicate OperationKept(p: Operation, v: Operation) {
    && p.id == v.id && p.identity == v.identity
    && (OperationTerminal(p.state) ==> v.state == p.state)
  }

  ghost predicate TargetKept(p: Target, v: Target) {
    && p.identity == v.identity
    && |p.generations| <= |v.generations| && |p.runs| <= |v.runs| && |p.operations| <= |v.operations|
    && (forall i | 0 <= i < |p.generations| :: TargetGenKept(p.generations[i], v.generations[i]))
    && (forall i | 0 <= i < |p.runs| :: RunKept(p.runs[i], v.runs[i]))
    && (forall i | 0 <= i < |p.operations| :: OperationKept(p.operations[i], v.operations[i]))
  }

  ghost predicate IncidentKept(p: Incident, v: Incident) {
    && p.identity == v.identity
    && (p.evidence.bundleId != 0 ==> v.evidence.bundleId == p.evidence.bundleId)
    && (forall k | 0 <= k < |p.evidence.artifacts| :: p.evidence.artifacts[k] in v.evidence.artifacts)
    && (!p.state.IncidentOpen? ==> !v.state.IncidentOpen?)
    && (!p.state.IncidentOpen? || v.state.IncidentOpen? ==> v.evidence == p.evidence)
  }

  ghost predicate Keeps(s: State, t: State) {
    && (forall id | id in s.sessions :: id in t.sessions && t.sessions[id].identity == s.sessions[id].identity)
    && (forall id | id in s.leases :: id in t.leases && LeaseKept(s.leases[id], t.leases[id]))
    && (forall id | id in s.agents :: id in t.agents && AgentKept(s.agents[id], t.agents[id]))
    && (forall id | id in s.execs :: id in t.execs && ExecKept(s.execs[id], t.execs[id]))
    && (forall id | id in s.targets :: id in t.targets && TargetKept(s.targets[id], t.targets[id]))
    && (forall id | id in s.incidents :: id in t.incidents && IncidentKept(s.incidents[id], t.incidents[id]))
  }

  /** No work of any kind is admitted under the lease between two projections. */
  ghost predicate NoNewWork(s: State, t: State, leaseId: Token) {
    && (forall id | id in t.execs && t.execs[id].identity.leaseId == leaseId :: id in s.execs)
    && (forall id | id in t.targets && t.targets[id].identity.leaseId == leaseId ::
          && id in s.targets
          && |t.targets[id].generations| == |s.targets[id].generations|
          && |t.targets[id].runs| == |s.targets[id].runs|
          && |t.targets[id].operations| == |s.targets[id].operations|)
    && (forall id | id in s.agents && id in t.agents && leaseId in s.leases
        && s.leases[leaseId].identity.agentId == id ::
          |t.agents[id].generations| == |s.agents[id].generations|)
  }

  /** Everything that was recorded stays recorded, and a lease that has begun to
      terminate admits no new work. */
  ghost predicate Evolves(s: State, t: State) {
    && Keeps(s, t)
    && forall leaseId | leaseId in s.leases && !Open(s.leases[leaseId]) :: NoNewWork(s, t, leaseId)
  }

  lemma AgentKeptTransitive(p: Agent, v: Agent, w: Agent)
    requires AgentKept(p, v) && AgentKept(v, w)
    ensures AgentKept(p, w)
  {}

  lemma TargetKeptTransitive(p: Target, v: Target, w: Target)
    requires TargetKept(p, v) && TargetKept(v, w)
    ensures TargetKept(p, w)
  {}

  lemma IncidentKeptTransitive(p: Incident, v: Incident, w: Incident)
    requires IncidentKept(p, v) && IncidentKept(v, w)
    ensures IncidentKept(p, w)
  {}

  lemma KeepsTransitive(s: State, t: State, u: State)
    requires Keeps(s, t) && Keeps(t, u)
    ensures Keeps(s, u)
  {
    forall id | id in s.agents ensures id in u.agents && AgentKept(s.agents[id], u.agents[id]) {
      AgentKeptTransitive(s.agents[id], t.agents[id], u.agents[id]);
    }
    forall id | id in s.targets ensures id in u.targets && TargetKept(s.targets[id], u.targets[id]) {
      TargetKeptTransitive(s.targets[id], t.targets[id], u.targets[id]);
    }
    forall id | id in s.incidents ensures id in u.incidents && IncidentKept(s.incidents[id], u.incidents[id]) {
      IncidentKeptTransitive(s.incidents[id], t.incidents[id], u.incidents[id]);
    }
  }

  lemma EvolvesTransitive(s: State, t: State, u: State)
    requires Evolves(s, t) && Evolves(t, u)
    ensures Evolves(s, u)
  {
    KeepsTransitive(s, t, u);
    forall leaseId | leaseId in s.leases && !Open(s.leases[leaseId]) ensures NoNewWork(s, u, leaseId) {
      assert LeaseKept(s.leases[leaseId], t.leases[leaseId]);
      assert NoNewWork(s, t, leaseId) && NoNewWork(t, u, leaseId);
    }
  }

  lemma EvolvesReflexive(s: State)
    ensures Evolves(s, s)
  {}

  // ------------------------------------------------------------- links are stable

  lemma ExecLinksKept(s: State, t: State, v: Exec)
    requires Keeps(s, t) && LinkedExec(s, v)
    ensures LinkedExec(t, v)
  {}

  lemma TargetLinksKept(s: State, t: State, v: Target)
    requires Keeps(s, t) && LinkedTarget(s, v)
    ensures LinkedTarget(t, v)
  {}

  lemma IncidentLinksKept(s: State, t: State, i: IncidentIdentity)
    requires Keeps(s, t) && LinkedIncident(s, i)
    ensures LinkedIncident(t, i)
  {
    if i.targetId != 0 {
      var p, v := s.targets[i.targetId], t.targets[i.targetId];
      assert TargetKept(p, v);
      if i.runId != 0 {
        var k := RunIndex(p.runs, i.runId);
        assert RunKept(p.runs[k], v.runs[k]);
        assert forall j | 0 <= j < k :: RunKept(p.runs[j], v.runs[j]);
        assert RunIndex(v.runs, i.runId) == k;
      }
    }
  }

  // ----------------------------------------------- parts of the invariant untouched

  lemma OwnersFrame(s: State, t: State)
    requires SessionsInv(s) && LeasesInv(s) && AgentsInv(s)
    requires s.sessions == t.sessions && s.leases == t.leases && s.agents == t.agents
    ensures SessionsInv(t) && LeasesInv(t) && AgentsInv(t)
  {
    forall id | id in t.sessions ensures SessionInv(t, id) { assert SessionInv(s, id); }
    forall id | id in t.leases ensures LeaseInv(t, id) { assert LeaseInv(s, id); }
    forall id | id in t.agents ensures AgentInv(t, id) { assert AgentInv(s, id); }
  }

  lemma ExecFrame(s: State, t: State, id: Token)
    requires id in s.execs && ExecInv(s, id) && Keeps(s, t)
    requires id in t.execs && s.execs[id] == t.execs[id] && s.leases == t.leases && s.agents == t.agents
    ensures ExecInv(t, id)
  {}

  lemma TargetFrame(s: State, t: State, id: Token)
    requires id in s.targets && TargetInv(s, id) && Keeps(s, t)
    requires id in t.targets && s.targets[id] == t.targets[id]
    requires Closed(t.leases[s.targets[id].identity.leaseId]) ==>
            Closed(s.leases[s.targets[id].identity.leaseId]) || TargetDone(s.targets[id])
    ensures TargetInv(t, id)
  {
    TargetLinksKept(s, t, s.targets[id]);
  }

  lemma IncidentsFrame(s: State, t: State)
    requires IncidentsInv(s) && Keeps(s, t) && s.incidents == t.incidents
    ensures IncidentsInv(t)
  {
    forall id | id in t.incidents ensures IncidentInv(t, id) {
      assert IncidentInv(s, id);
      IncidentLinksKept(s, t, s.incidents[id].identity);
    }
  }
}
