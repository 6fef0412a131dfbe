/** What holds in every reachable projection, and what no later command changes. */
module Safety {
  import opened States
  import opened Records
  import opened Replay
  import opened Commands
  import opened Invariant
  import opened Owners
  import opened Lifecycle

  // ----------------------------------------------------------------- the live work

  datatype Work = ExecWork(id: Token) | RunWork(targetId: Token, runId: Token) | OperationWork(targetId: Token,
      operationId: Token)

  predicate LiveExec(s: State, leaseId: Token, id: Token) {
    id in s.execs && s.execs[id].identity.leaseId == leaseId && !ExecTerminal(s.execs[id].state)
  }

  predicate LiveRun(s: State, leaseId: Token, id: Token, k: nat) {
    id in s.targets && s.targets[id].identity.leaseId == leaseId && k < |s.targets[id].runs|
        && !RunTerminal(s.targets[id].runs[k].state)
  }

  predicate LiveOperation(s: State, leaseId: Token, id: Token, k: nat) {
    && id in s.targets && s.targets[id].identity.leaseId == leaseId && k < |s.targets[id].operations|
    && !OperationTerminal(s.targets[id].operations[k].state)
  }

  function LiveExecs(s: State, leaseId: Token): set<Work> {
    set id | id in s.execs && LiveExec(s, leaseId, id) :: ExecWork(id)
  }

  function LiveRuns(s: State, leaseId: Token): set<Work> {
    set id, k: nat | id in s.targets && 0 <= k < |s.targets[id].runs| && LiveRun(s, leaseId, id, k) ::
        RunWork(id, s.targets[id].runs[k].id)
  }

  function LiveOperations(s: State, leaseId: Token): set<Work> {
    set id, k: nat | id in s.targets && 0 <= k < |s.targets[id].operations| && LiveOperation(s, leaseId, id, k) ::
      OperationWork(id, s.targets[id].operations[k].id)
  }

  /** Everything under a lease that has not reached a terminal state. */
  function LiveWork(s: State, leaseId: Token): set<Work> {
    LiveExecs(s, leaseId) + LiveRuns(s, leaseId) + LiveOperations(s, leaseId)
  }

  lemma NoLiveWork(s: State, leaseId: Token)
    ensures LiveWork(s, leaseId) == {} <==> LeaseWorkDone(s, leaseId)
  {
    assert forall id | LiveExec(s, leaseId, id) :: ExecWork(id) in LiveWork(s, leaseId);
    assert forall id, k: nat | LiveRun(s, leaseId, id, k) ::
        RunWork(id, s.targets[id].runs[k].id) in LiveWork(s, leaseId);
    assert forall id, k: nat | LiveOperation(s, leaseId, id, k) ::
        OperationWork(id, s.targets[id].operations[k].id) in LiveWork(s, leaseId);
    if LiveWork(s, leaseId) == {} {
      assert forall id | id in s.execs :: !LiveExec(s, leaseId, id);
      assert forall id, k: nat | id in s.targets && k < |s.targets[id].runs| :: !LiveRun(s, leaseId, id, k);
      assert forall id, k: nat | id in s.targets && k < |s.targets[id].operations| :: !LiveOperation(s, leaseId, id, k);
    }
  }

  lemma LiveExecsShrink(s: State, t: State, leaseId: Token)
    requires Keeps(s, t) && NoNewWork(s, t, leaseId)
    ensures LiveExecs(t, leaseId) <= LiveExecs(s, leaseId)
  {}

  lemma LiveRunsShrink(s: State, t: State, leaseId: Token)
    requires Keeps(s, t) && NoNewWork(s, t, leaseId)
    ensures LiveRuns(t, leaseId) <= LiveRuns(s, leaseId)
  {}

  lemma LiveOperationsShrink(s: State, t: State, leaseId: Token)
    requires Keeps(s, t) && NoNewWork(s, t, leaseId)
    ensures LiveOperations(t, leaseId) <= LiveOperations(s, leaseId)
  {}

  lemma LiveWorkShrinks(s: State, t: State, leaseId: Token)
    requires Evolves(s, t) && leaseId in s.leases && !Open(s.leases[leaseId])
    ensures LiveWork(t, leaseId) <= LiveWork(s, leaseId)
  {
    LiveExecsShrink(s, t, leaseId);
    LiveRunsShrink(s, t, leaseId);
    LiveOperationsShrink(s, t, leaseId);
  }

  // -------------------------------------------------------------------- closed leases

  /** Everything that a terminated lease owned has ended. */
  ghost predicate Ended(s: State, leaseId: Token)
    requires leaseId in s.leases
  {
    var l := s.leases[leaseId];
    && LeaseWorkDone(s, leaseId)
    && l.identity.sessionId in s.sessions && s.sessions[l.identity.sessionId].state.SessionReleased?
    && l.identity.agentId in s.agents && AgentDone(s.agents[l.identity.agentId])
    && (forall id | id in s.targets && s.targets[id].identity.leaseId == leaseId :: TargetDone(s.targets[id]))
  }

  lemma ClosedHasEnded(s: State, leaseId: Token)
    requires Inv(s) && leaseId in s.leases && Closed(s.leases[leaseId])
    ensures Ended(s, leaseId)
  {
    ClosedOwners(s, leaseId);
    ClosedExecs(s, leaseId);
    ClosedTargets(s, leaseId);
  }

  lemma ClosedOwners(s: State, leaseId: Token)
    requires SessionsInv(s) && LeasesInv(s) && AgentsInv(s) && leaseId in s.leases && Closed(s.leases[leaseId])
    ensures var l := s.leases[leaseId];
            && l.identity.sessionId in s.sessions && s.sessions[l.identity.sessionId].state.SessionReleased?
            && l.identity.agentId in s.agents && AgentDone(s.agents[l.identity.agentId])
  {
    TripleOf(s, leaseId);
  }

  lemma ClosedExecs(s: State, leaseId: Token)
    requires ExecsInv(s) && leaseId in s.leases && Closed(s.leases[leaseId])
    ensures forall id | id in s.execs && s.execs[id].identity.leaseId == leaseId :: ExecTerminal(s.execs[id].state)
  {}

  lemma ClosedTargets(s: State, leaseId: Token)
    requires TargetsInv(s) && leaseId in s.leases && Closed(s.leases[leaseId])
    ensures forall id | id in s.targets && s.targets[id].identity.leaseId == leaseId :: TargetDone(s.targets[id])
  {}

  lemma AfterEvolves(a: Sys, moves: seq<Move>)
    requires Consistent(a) && AllAllowed(a, moves)
    ensures Evolves(a.state, After(a, moves).state)
  {
    AfterConsistent(a, moves);
  }

  lemma AfterEnded(a: Sys, moves: seq<Move>, leaseId: Token)
    requires Consistent(a) && AllAllowed(a, moves) && leaseId in a.state.leases && Closed(a.state.leases[leaseId])
    ensures leaseId in After(a, moves).state.leases && Ended(After(a, moves).state, leaseId)
  {
    AfterConsistent(a, moves);
    assert LeaseKept(a.state.leases[leaseId], After(a, moves).state.leases[leaseId]);
    ClosedHasEnded(After(a, moves).state, leaseId);
  }

  /** A closed lease stays closed: its record never changes again, nothing is admitted
      under it, and everything it owned stays ended. */
  lemma ClosedForever(a: Sys, moves: seq<Move>, leaseId: Token)
    requires Consistent(a) && AllAllowed(a, moves) && leaseId in a.state.leases && Closed(a.state.leases[leaseId])
    ensures leaseId in After(a, moves).state.leases && After(a, moves).state.leases[leaseId] == a.state.leases[leaseId]
    ensures Ended(After(a, moves).state, leaseId) && NoNewWork(a.state, After(a, moves).state, leaseId)
    ensures LiveWork(After(a, moves).state, leaseId) == {}
  {
    AfterEvolves(a, moves);
    AfterEnded(a, moves, leaseId);
    StaysClosed(a.state, After(a, moves).state, leaseId);
  }

  lemma StaysClosed(s: State, t: State, leaseId: Token)
    requires Evolves(s, t) && leaseId in s.leases && Closed(s.leases[leaseId])
    requires leaseId in t.leases && Ended(t, leaseId)
    ensures t.leases[leaseId] == s.leases[leaseId]
    ensures NoNewWork(s, t, leaseId) && LiveWork(t, leaseId) == {}
  {
    assert LeaseKept(s.leases[leaseId], t.leases[leaseId]);
    NoLiveWork(t, leaseId);
  }

  /** From the moment a termination begins, the live work under the lease only shrinks. */
  lemma TerminationAdmitsNothing(a: Sys, moves: seq<Move>, leaseId: Token)
    requires Consistent(a) && AllAllowed(a, moves) && leaseId in a.state.leases && !Open(a.state.leases[leaseId])
    ensures LiveWork(After(a, moves).state, leaseId) <= LiveWork(a.state, leaseId)
    ensures leaseId in After(a, moves).state.leases && !Open(After(a, moves).state.leases[leaseId])
  {
    AfterEvolves(a, moves);
    StaysTerminating(a.state, After(a, moves).state, leaseId);
  }

  lemma StaysTerminating(s: State, t: State, leaseId: Token)
    requires Evolves(s, t) && leaseId in s.leases && !Open(s.leases[leaseId])
    ensures LiveWork(t, leaseId) <= LiveWork(s, leaseId)
    ensures leaseId in t.leases && !Open(t.leases[leaseId])
  {
    LiveWorkShrinks(s, t, leaseId);
    assert LeaseKept(s.leases[leaseId], t.leases[leaseId]);
  }
}
