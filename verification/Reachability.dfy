/** Theorems about every reachable projection: who owns what, which realization is
    live, what has been written once and for all, and which leases need attention. */
module Reachability {
  import opened States
  import opened Records
  import opened Replay
  import opened Commands
  import opened Invariant
  import opened Owners
  import opened Lifecycle
  import opened Attention

  /** A system that some run from the empty journal leads to. */
  ghost predicate Reachable(a: Sys) { exists moves: seq<Move> :: AllAllowed(START, moves) && a == After(START, moves) }

  lemma ReachableConsistent(a: Sys)
    requires Reachable(a)
    ensures Consistent(a)
  {
    var moves: seq<Move> :| AllAllowed(START, moves) && a == After(START, moves);
    StartConsistent();
    AfterConsistent(START, moves);
  }

  // ---------------------------------------------------------- ownership and generations

  /** A lease, its session and its agent workspace name each other, share one
      provenance, the lease names the current generation of the agent, and the session
      state follows from the termination of the lease. */
  ghost predicate InLockstep(s: State, l: Lease) {
    && l.identity.sessionId in s.sessions && l.identity.agentId in s.agents
    && var x, a := s.sessions[l.identity.sessionId], s.agents[l.identity.agentId];
    && x.identity.leaseId == l.id && x.identity.agentId == l.identity.agentId && a.sessionId == l.identity.sessionId
    && x.identity.provenance == l.identity.provenance
    && (forall i | 0 <= i < |a.generations| :: a.generations[i].identity.provenance == l.identity.provenance)
    && l.agentGeneration == a.current == |a.generations|
    && x.state == SessionStateOf(l.termination)
  }

  lemma OwnershipLockstep(s: State, leaseId: Token)
    requires SessionsInv(s) && LeasesInv(s) && AgentsInv(s) && leaseId in s.leases
    ensures InLockstep(s, s.leases[leaseId])
  {}

  /** Every session and every agent workspace belongs to exactly one lease. */
  ghost predicate OneToOne(s: State) {
    && (forall id | id in s.sessions ::
        s.sessions[id].identity.leaseId in s.leases
        && s.leases[s.sessions[id].identity.leaseId].identity.sessionId == id)
    && (forall id | id in s.agents ::
        s.agents[id].sessionId in s.sessions && s.sessions[s.agents[id].sessionId].identity.agentId == id)
    && (forall i, j | i in s.leases && j in s.leases && i != j ::
          && s.leases[i].identity.sessionId != s.leases[j].identity.sessionId
          && s.leases[i].identity.agentId != s.leases[j].identity.agentId)
  }

  lemma LeasesApart(s: State, i: Token, j: Token)
    requires SessionsInv(s) && LeasesInv(s) && AgentsInv(s) && i in s.leases && j in s.leases && i != j
    ensures s.leases[i].identity.sessionId != s.leases[j].identity.sessionId
    ensures s.leases[i].identity.agentId != s.leases[j].identity.agentId
  {}

  lemma OwnedOnce(s: State)
    requires SessionsInv(s) && LeasesInv(s) && AgentsInv(s)
    ensures forall id | id in s.sessions ::
            s.sessions[id].identity.leaseId in s.leases
            && s.leases[s.sessions[id].identity.leaseId].identity.sessionId == id
    ensures forall id | id in s.agents ::
            s.agents[id].sessionId in s.sessions && s.sessions[s.agents[id].sessionId].identity.agentId == id
  {
    forall id | id in s.sessions
      ensures s.sessions[id].identity.leaseId in s.leases
              && s.leases[s.sessions[id].identity.leaseId].identity.sessionId == id
    {
      assert SessionInv(s, id);
    }
    forall id | id in s.agents ensures s.agents[id].sessionId in s.sessions
        && s.sessions[s.agents[id].sessionId].identity.agentId == id {
      assert AgentInv(s, id);
    }
  }

  lemma OwnersOneToOne(s: State)
    requires SessionsInv(s) && LeasesInv(s) && AgentsInv(s)
    ensures OneToOne(s)
  {
    OwnedOnce(s);
    forall i, j | i in s.leases && j in s.leases && i != j
      ensures s.leases[i].identity.sessionId != s.leases[j].identity.sessionId
      ensures s.leases[i].identity.agentId != s.leases[j].identity.agentId
    {
      LeasesApart(s, i, j);
    }
  }

  /** Target generations are numbered from one with predecessor links, only the last
      one may be live, no generation has two runs, and at most one run is live: it
      lies on the current generation. */
  ghost predicate OneLiveTarget(t: Target) {
    && t.current == |t.generations|
    && (forall i | 0 <= i < |t.generations| ::
        t.generations[i].identity.generation == i + 1 && t.generations[i].identity.previous == i)
    && (forall i | 0 <= i < t.current - 1 :: TargetTerminal(t.generations[i].state))
    && (forall i, j | 0 <= i < j < |t.runs| :: t.runs[i].identity.generation != t.runs[j].identity.generation)
    && (forall i | 0 <= i < |t.runs| && !RunTerminal(t.runs[i].state) :: t.runs[i].identity.generation == t.current)
    && (forall i, j | 0 <= i < j < |t.runs| :: RunTerminal(t.runs[i].state) || RunTerminal(t.runs[j].state))
  }

  lemma OneLiveRealization(s: State, id: Token)
    requires TargetsInv(s) && id in s.targets
    ensures OneLiveTarget(s.targets[id])
  {}

  ghost predicate OneLiveAgent(a: Agent) {
    && a.current == |a.generations|
    && (forall i | 0 <= i < |a.generations| ::
        a.generations[i].identity.generation == i + 1 && a.generations[i].identity.previous == i)
    && (forall i | 0 <= i < a.current - 1 :: AgentTerminal(a.generations[i].state))
  }

  lemma OneLiveAgentRealization(s: State, id: Token)
    requires AgentsInv(s) && id in s.agents
    ensures OneLiveAgent(s.agents[id])
  {}

  /** A quiescing or sealed agent generation has only finished execs. */
  ghost predicate Quiesced(s: State, e: Exec) {
    && e.identity.agentId in s.agents
    && HasAgentGen(s.agents[e.identity.agentId], e.identity.agentGeneration)
    && var gens := s.agents[e.identity.agentId].generations;
    && e.identity.agentGeneration <= |gens|
    && (AgentSettled(gens[e.identity.agentGeneration - 1].state) ==> ExecTerminal(e.state))
  }

  lemma QuiesceExclusion(s: State, execId: Token)
    requires ExecsInv(s) && execId in s.execs
    ensures Quiesced(s, s.execs[execId])
  {}

  ghost predicate Orderly(s: State) {
    && OneToOne(s)
    && (forall id | id in s.leases :: InLockstep(s, s.leases[id]))
    && (forall id | id in s.targets :: OneLiveTarget(s.targets[id]))
    && (forall id | id in s.agents :: OneLiveAgent(s.agents[id]))
    && (forall id | id in s.execs :: Quiesced(s, s.execs[id]))
  }

  lemma InvIsOrderly(s: State)
    requires Inv(s)
    ensures Orderly(s)
  {
    OwnersOneToOne(s);
    forall id | id in s.leases ensures InLockstep(s, s.leases[id]) { OwnershipLockstep(s, id); }
    forall id | id in s.targets ensures OneLiveTarget(s.targets[id]) { OneLiveRealization(s, id); }
    forall id | id in s.agents ensures OneLiveAgent(s.agents[id]) { OneLiveAgentRealization(s, id); }
    forall id | id in s.execs ensures Quiesced(s, s.execs[id]) { QuiesceExclusion(s, id); }
  }

  /** Ownership, generations and quiescence are in order whatever commands have run. */
  lemma EveryReachableOrderly(a: Sys)
    requires Reachable(a)
    ensures Orderly(a.state)
  {
    ReachableConsistent(a);
    InvIsOrderly(a.state);
  }

  /** At any time every reachable lease accepts work, or needs attention, or is finally
      terminated, and never two of these. */
  lemma NoForgottenLease(a: Sys, now: Time)
    requires Reachable(a)
    ensures forall id | id in a.state.leases :: OneClass(a.state.leases[id], now)
  {
    ReachableConsistent(a);
    forall id | id in a.state.leases ensures OneClass(a.state.leases[id], now) { ThreeClasses(a.state, id, now); }
  }

  // ------------------------------------------------------------------------ write once

  predicate WrittenOnce(p: Binding, v: Binding) {
    if p.Empty() then v.Empty() || v.Complete() else v == p && v.Complete()
  }

  predicate AgentWrittenOnce(p: AgentBinding, v: AgentBinding) {
    if p.Empty() then v.Empty() || v.Complete() else v == p && v.Complete()
  }

  /** Bindings go from empty to complete once; the bundle of a finished run is final. */
  ghost predicate TargetWrittenOnce(p: Target, v: Target) {
    && |p.generations| <= |v.generations| && |p.runs| <= |v.runs|
    && (forall i | 0 <= i < |p.generations| :: WrittenOnce(p.generations[i].binding, v.generations[i].binding))
    && (forall i | 0 <= i < |p.runs| ::
          && p.runs[i].id == v.runs[i].id && WrittenOnce(p.runs[i].binding, v.runs[i].binding)
          && (RunTerminal(p.runs[i].state) ==>
              v.runs[i].state == p.runs[i].state && v.runs[i].bundle == p.runs[i].bundle))
  }

  lemma KeptWrittenOnce(p: Target, v: Target)
    requires ValidTarget(p) && ValidTarget(v) && TargetKept(p, v)
    ensures TargetWrittenOnce(p, v)
  {}

  lemma TargetsWrittenOnce(s: State, t: State, id: Token)
    requires TargetsInv(s) && TargetsInv(t) && Keeps(s, t) && id in s.targets
    ensures id in t.targets && TargetWrittenOnce(s.targets[id], t.targets[id])
  {
    assert TargetInv(s, id) && TargetInv(t, id);
    KeptWrittenOnce(s.targets[id], t.targets[id]);
  }

  lemma AgentsWrittenOnce(s: State, t: State, id: Token)
    requires AgentsInv(s) && AgentsInv(t) && Keeps(s, t) && id in s.agents
    ensures id in t.agents && |s.agents[id].generations| <= |t.agents[id].generations|
    ensures forall i | 0 <= i < |s.agents[id].generations| ::
              AgentWrittenOnce(s.agents[id].generations[i].binding, t.agents[id].generations[i].binding)
  {
    assert AgentInv(s, id) && AgentInv(t, id);
    var p, v := s.agents[id], t.agents[id];
    forall i | 0 <= i < |p.generations| ensures AgentWrittenOnce(p.generations[i].binding, v.generations[i].binding) {
      assert ValidAgentGen(p, p.generations[i]) && ValidAgentGen(v, v.generations[i])
          && AgentGenKept(p.generations[i], v.generations[i]);
    }
  }

  /** Across any run of commands: bindings and bundles are written once, the identity of an
      incident never changes, and its evidence changes only when the incident is sealed, by addition. */
  lemma EvidenceWrittenOnce(a: Sys, moves: seq<Move>)
    requires Consistent(a) && AllAllowed(a, moves)
    ensures WrittenOnceFrom(a.state, After(a, moves).state)
  {
    AfterConsistent(a, moves);
    WrittenOnceBetween(a.state, After(a, moves).state);
  }

  ghost predicate WrittenOnceFrom(s: State, t: State) {
    && (forall id | id in s.targets :: id in t.targets && TargetWrittenOnce(s.targets[id], t.targets[id]))
    && (forall id | id in s.agents :: id in t.agents && |s.agents[id].generations| <= |t.agents[id].generations| &&
          forall i | 0 <= i < |s.agents[id].generations| ::
            AgentWrittenOnce(s.agents[id].generations[i].binding, t.agents[id].generations[i].binding))
    && (forall id | id in s.incidents :: id in t.incidents && IncidentKept(s.incidents[id], t.incidents[id]))
  }

  lemma WrittenOnceBetween(s: State, t: State)
    requires Inv(s) && Inv(t) && Evolves(s, t)
    ensures WrittenOnceFrom(s, t)
  {
    forall id | id in s.targets ensures id in t.targets
        && TargetWrittenOnce(s.targets[id], t.targets[id]) { TargetsWrittenOnce(s, t, id); }
    forall id | id in s.agents
      ensures id in t.agents && |s.agents[id].generations| <= |t.agents[id].generations|
      ensures forall i | 0 <= i < |s.agents[id].generations| ::
                AgentWrittenOnce(s.agents[id].generations[i].binding, t.agents[id].generations[i].binding)
    {
      AgentsWrittenOnce(s, t, id);
    }
  }
}
