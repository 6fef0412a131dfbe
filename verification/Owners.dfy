/** Sessions, leases and agent workspaces change together: a session, its lease and
    its agent form one triple, and replacing one triple disturbs no other. */
module Owners {
  import opened States
  import opened Records
  import opened Replay
  import opened Commands
  import opened Invariant
  import opened Landing

  /** A session, a lease and an agent workspace that own each other. */
  ghost predicate Fits(x: Session, l: Lease, a: Agent) {
    && ValidSession(x) && ValidLease(l) && ValidAgent(a)
    && x.identity.leaseId == l.id && x.identity.agentId == a.id
    && l.identity.sessionId == x.id && l.identity.agentId == a.id && a.sessionId == x.id
    && l.identity.provenance == x.identity.provenance
    && (forall i | 0 <= i < |a.generations| :: a.generations[i].identity.provenance == l.identity.provenance)
    && l.agentGeneration == a.current
    && x.state == SessionStateOf(l.termination)
    && (Open(l) ==> l.state.LeaseActive?)
    && (forall i | 0 <= i < |a.generations| - 1 :: AgentTerminal(a.generations[i].state))
    && (Closed(l) ==> AgentDone(a))
  }

  /** The projection with one triple written. */
  function Owned(s: State, x: Session, l: Lease, a: Agent): State {
    s.(sessions := s.sessions[x.id := x], leases := s.leases[l.id := l], agents := s.agents[a.id := a])
  }

  ghost predicate NewOwners(s: State, x: Session, l: Lease, a: Agent) {
    x.id !in s.sessions && l.id !in s.leases && a.id !in s.agents
  }

  /** A later revision of a recorded triple, which grows only while its lease is open. */
  ghost predicate SameOwners(s: State, x: Session, l: Lease, a: Agent) {
    && x.id in s.sessions && l.id in s.leases && a.id in s.agents
    && s.sessions[x.id].identity == x.identity
    && LeaseKept(s.leases[l.id], l)
    && AgentKept(s.agents[a.id], a)
    && (Open(s.leases[l.id]) || |a.generations| == |s.agents[a.id].generations|)
  }

  lemma TripleOf(s: State, leaseId: Token)
    requires SessionsInv(s) && LeasesInv(s) && AgentsInv(s) && leaseId in s.leases
    ensures s.leases[leaseId].id == leaseId
    ensures s.leases[leaseId].identity.sessionId in s.sessions && s.leases[leaseId].identity.agentId in s.agents
    ensures Fits(s.sessions[s.leases[leaseId].identity.sessionId], s.leases[leaseId],
            s.agents[s.leases[leaseId].identity.agentId])
  {}

  lemma OwnersKeepAll(s: State, x: Session, l: Lease, a: Agent)
    requires (NewOwners(s, x, l, a) || SameOwners(s, x, l, a)) && Keeps(s, s)
    ensures Keeps(s, Owned(s, x, l, a))
  {}

  lemma OwnersAdmitNothing(s: State, x: Session, l: Lease, a: Agent, leaseId: Token)
    requires (NewOwners(s, x, l, a) || SameOwners(s, x, l, a)) && leaseId in s.leases && !Open(s.leases[leaseId])
    requires forall id | id in s.leases && s.leases[id].identity.agentId == a.id :: id == l.id
    ensures NoNewWork(s, Owned(s, x, l, a), leaseId)
  {}

  lemma OwnersKeep(s: State, x: Session, l: Lease, a: Agent)
    requires NewOwners(s, x, l, a) || SameOwners(s, x, l, a)
    requires forall id | id in s.leases && s.leases[id].identity.agentId == a.id :: id == l.id
    ensures Evolves(s, Owned(s, x, l, a))
  {
    EvolvesReflexive(s);
    OwnersKeepAll(s, x, l, a);
    forall leaseId | leaseId in s.leases && !Open(s.leases[leaseId])
      ensures NoNewWork(s, Owned(s, x, l, a), leaseId)
    {
      OwnersAdmitNothing(s, x, l, a, leaseId);
    }
  }

  /** Whatever is recorded under the identities of a triple belongs to that triple. */
  ghost predicate Apart(s: State, x: Session, l: Lease, a: Agent) {
    && (x.id in s.sessions ==> s.sessions[x.id].identity.leaseId == l.id && s.sessions[x.id].identity.agentId == a.id)
    && (l.id in s.leases ==> s.leases[l.id].identity.sessionId == x.id)
    && (a.id in s.agents ==> s.agents[a.id].sessionId == x.id)
  }

  lemma TripleHolds(s: State, x: Session, l: Lease, a: Agent)
    requires Fits(x, l, a)
    ensures SessionInv(Owned(s, x, l, a), x.id) && LeaseInv(Owned(s, x, l, a), l.id)
            && AgentInv(Owned(s, x, l, a), a.id)
  {}

  lemma SessionsAfter(s: State, x: Session, l: Lease, a: Agent)
    requires SessionsInv(s) && Apart(s, x, l, a) && SessionInv(Owned(s, x, l, a), x.id)
    ensures SessionsInv(Owned(s, x, l, a))
  {}

  lemma LeasesAfter(s: State, x: Session, l: Lease, a: Agent)
    requires LeasesInv(s) && Apart(s, x, l, a) && LeaseInv(Owned(s, x, l, a), l.id)
    ensures LeasesInv(Owned(s, x, l, a))
    ensures forall id | id in s.leases && s.leases[id].identity.agentId == a.id :: id == l.id
  {}

  lemma AgentsAfter(s: State, x: Session, l: Lease, a: Agent)
    requires AgentsInv(s) && Apart(s, x, l, a) && AgentInv(Owned(s, x, l, a), a.id)
    ensures AgentsInv(Owned(s, x, l, a))
  {}

  lemma OwnersAfter(s: State, x: Session, l: Lease, a: Agent)
    requires SessionsInv(s) && LeasesInv(s) && AgentsInv(s)
    requires Fits(x, l, a) && Apart(s, x, l, a)
    ensures SessionsInv(Owned(s, x, l, a)) && LeasesInv(Owned(s, x, l, a)) && AgentsInv(Owned(s, x, l, a))
    ensures forall id | id in s.leases && s.leases[id].identity.agentId == a.id :: id == l.id
  {
    TripleHolds(s, x, l, a);
    SessionsAfter(s, x, l, a);
    LeasesAfter(s, x, l, a);
    AgentsAfter(s, x, l, a);
  }

  // ------------------------------------------------------------- the dependent work

  /** Execs of the triple have ended if its agent generation is settled or its lease closed. */
  ghost predicate ExecsReady(s: State, l: Lease, a: Agent) {
    forall id | id in s.execs ::
      && (s.execs[id].identity.agentId == a.id && SettledAt(a, s.execs[id].identity.agentGeneration) ==>
          ExecTerminal(s.execs[id].state))
      && (s.execs[id].identity.leaseId == l.id && Closed(l) ==> ExecTerminal(s.execs[id].state))
  }

  ghost predicate SettledAt(a: Agent, generation: nat) {
    0 < generation <= |a.generations| && AgentSettled(a.generations[generation - 1].state)
  }

  ghost predicate TargetsReady(s: State, l: Lease) {
    forall id | id in s.targets :: s.targets[id].identity.leaseId == l.id && Closed(l) ==> TargetDone(s.targets[id])
  }

  lemma ExecsAfterOwners(s: State, x: Session, l: Lease, a: Agent)
    requires ExecsInv(s) && ExecsReady(s, l, a) && Keeps(s, Owned(s, x, l, a))
    ensures ExecsInv(Owned(s, x, l, a))
  {
    var t := Owned(s, x, l, a);
    forall id | id in t.execs ensures ExecInv(t, id) {
      assert ExecInv(s, id);
      ExecLinksKept(s, t, s.execs[id]);
    }
  }

  lemma TargetsAfterOwners(s: State, x: Session, l: Lease, a: Agent)
    requires TargetsInv(s) && TargetsReady(s, l) && Keeps(s, Owned(s, x, l, a))
    ensures TargetsInv(Owned(s, x, l, a))
  {
    var t := Owned(s, x, l, a);
    forall id | id in t.targets ensures TargetInv(t, id) { TargetFrame(s, t, id); }
  }

  lemma SameOwnersApart(s: State, x: Session, l: Lease, a: Agent)
    requires NewOwners(s, x, l, a) || SameOwners(s, x, l, a)
    requires Fits(x, l, a)
    ensures Apart(s, x, l, a)
  {}

  lemma InvAfterOwners(s: State, x: Session, l: Lease, a: Agent)
    requires Inv(s) && Fits(x, l, a)
    requires NewOwners(s, x, l, a) || SameOwners(s, x, l, a)
    requires ExecsReady(s, l, a) && TargetsReady(s, l)
    ensures Inv(Owned(s, x, l, a)) && Evolves(s, Owned(s, x, l, a))
  {
    SameOwnersApart(s, x, l, a);
    OwnersAfter(s, x, l, a);
    OwnersKeep(s, x, l, a);
    ExecsAfterOwners(s, x, l, a);
    TargetsAfterOwners(s, x, l, a);
    IncidentsFrame(s, Owned(s, x, l, a));
  }
}
