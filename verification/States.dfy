/** The lifecycle state machines of the domain: one relation per resource, the
    terminal predicates, and the retirement paths used by release and recovery. */
module States {

  datatype SessionState =
    | SessionRequested | SessionAdmitted | SessionLeased | SessionReleasing
    | SessionReleased | SessionQuarantined | SessionLost

  datatype LeaseState =
    | LeaseActive | LeaseReleasing | LeaseReleased | LeaseExpired
    | LeaseRevoked | LeaseQuarantined | LeaseLost

  datatype AgentState =
    | AgentProvisioning | AgentBooting | AgentReady | AgentRunning | AgentQuiescing
    | AgentSealed | AgentFailed | AgentQuarantined | AgentLost

  datatype TargetState =
    | TargetProvisioning | TargetInstrumenting | TargetReady | TargetResettable
    | TargetDestroyed | TargetFailed | TargetQuarantined | TargetLost

  datatype RunState =
    | RunRequested | RunPreparing | RunObserving | RunRunning | RunFinalizing
    | RunCompleted | RunFailed | RunQuarantined | RunLost

  datatype ExecState =
    | ExecRequested | ExecStarting | ExecRunning
    | ExecCompleted | ExecFailed | ExecCancelled | ExecLost

  datatype OperationState =
    | OperationRequested | OperationRunning
    | OperationCompleted | OperationFailed | OperationCancelled | OperationLost

  datatype IncidentState =
    | IncidentOpen | IncidentEvidenceSealed | IncidentRecovering | IncidentResolved

  // ---------------------------------------------------------------- transitions

  predicate SessionStep(from: SessionState, to: SessionState) {
    match from
    case SessionRequested => to.SessionAdmitted? || to.SessionQuarantined? || to.SessionLost?
    case SessionAdmitted => to.SessionLeased? || to.SessionQuarantined? || to.SessionLost?
    case SessionLeased => to.SessionReleasing? || to.SessionQuarantined? || to.SessionLost?
    case SessionReleasing => to.SessionReleased? || to.SessionQuarantined? || to.SessionLost?
    case _ => false
  }

  predicate LeaseStep(from: LeaseState, to: LeaseState) {
    match from
    case LeaseActive => !to.LeaseActive? && !to.LeaseReleased?
    case LeaseReleasing => to.LeaseReleased? || to.LeaseRevoked? || to.LeaseQuarantined? || to.LeaseLost?
    case _ => false
  }

  predicate AgentFailure(state: AgentState) {
    state.AgentFailed? || state.AgentQuarantined? || state.AgentLost?
  }

  predicate AgentTerminal(state: AgentState) {
    state.AgentSealed? || AgentFailure(state)
  }

  predicate AgentStep(from: AgentState, to: AgentState) {
    match from
    case AgentProvisioning => to.AgentBooting? || AgentFailure(to)
    case AgentBooting => to.AgentReady? || AgentFailure(to)
    case AgentReady => to.AgentRunning? || to.AgentQuiescing? || AgentFailure(to)
    case AgentRunning => to.AgentQuiescing? || AgentFailure(to)
    case AgentQuiescing => to.AgentSealed? || AgentFailure(to)
    case _ => false
  }

  predicate TargetFailure(state: TargetState) {
    state.TargetFailed? || state.TargetQuarantined? || state.TargetLost?
  }

  predicate TargetTerminal(state: TargetState) {
    state.TargetDestroyed? || TargetFailure(state)
  }

  predicate TargetStep(from: TargetState, to: TargetState) {
    match from
    case TargetProvisioning => to.TargetInstrumenting? || TargetFailure(to)
    case TargetInstrumenting => to.TargetReady? || TargetFailure(to)
    case TargetReady => to.TargetResettable? || TargetFailure(to)
    case TargetResettable => to.TargetDestroyed? || TargetFailure(to)
    case _ => false
  }

  predicate RunFailure(state: RunState) {
    state.RunFailed? || state.RunQuarantined? || state.RunLost?
  }

  predicate RunTerminal(state: RunState) {
    state.RunCompleted? || RunFailure(state)
  }

  predicate RunStep(from: RunState, to: RunState) {
    match from
    case RunRequested => to.RunPreparing? || RunFailure(to)
    case RunPreparing => to.RunObserving? || RunFailure(to)
    case RunObserving => to.RunRunning? || RunFailure(to)
    case RunRunning => to.RunFinalizing? || RunFailure(to)
    case RunFinalizing => to.RunCompleted? || RunFailure(to)
    case _ => false
  }

  predicate ExecTerminal(state: ExecState) {
    state.ExecCompleted? || state.ExecFailed? || state.ExecCancelled? || state.ExecLost?
  }

  predicate ExecStep(from: ExecState, to: ExecState) {
    match from
    case ExecRequested => to.ExecStarting? || to.ExecCancelled? || to.ExecFailed? || to.ExecLost?
    case ExecStarting => to.ExecRunning? || to.ExecCancelled? || to.ExecFailed? || to.ExecLost?
    case ExecRunning => ExecTerminal(to)
    case _ => false
  }

  predicate OperationTerminal(state: OperationState) {
    state.OperationCompleted? || state.OperationFailed? || state.OperationCancelled? || state.OperationLost?
  }

  predicate OperationStep(from: OperationState, to: OperationState) {
    match from
    case OperationRequested =>
        to.OperationRunning? || to.OperationFailed? || to.OperationCancelled? || to.OperationLost?
    case OperationRunning => OperationTerminal(to)
    case _ => false
  }

  predicate IncidentStep(from: IncidentState, to: IncidentState) {
    match from
    case IncidentOpen => to.IncidentEvidenceSealed?
    case IncidentEvidenceSealed => to.IncidentRecovering? || to.IncidentResolved?
    case IncidentRecovering => to.IncidentResolved?
    case IncidentResolved => false
  }

  // ----------------------------------------------------------- retirement paths

  predicate LegalTargetPath(from: TargetState, path: seq<TargetState>)
    decreases |path|
  {
    path == [] || (TargetStep(from, path[0]) && LegalTargetPath(path[0], path[1..]))
  }

  predicate LegalAgentPath(from: AgentState, path: seq<AgentState>)
    decreases |path|
  {
    path == [] || (AgentStep(from, path[0]) && LegalAgentPath(path[0], path[1..]))
  }

  /** The state changes needed before a target realization is released or replaced:
      legal one by one, and ending in a terminal state whatever the start. */
  function TargetRetirement(state: TargetState): (path: seq<TargetState>)
    ensures LegalTargetPath(state, path)
    ensures TargetTerminal(if path == [] then state else path[|path| - 1])
    ensures path == [] <==> TargetTerminal(state)
  {
    match state
    case TargetReady =>
      assert [TargetResettable, TargetDestroyed][1..] == [TargetDestroyed];
      [TargetResettable, TargetDestroyed]
    case TargetResettable => [TargetDestroyed]
    case TargetProvisioning => [TargetFailed]
    case TargetInstrumenting => [TargetFailed]
    case _ => []
  }

  /** The same for an agent realization. */
  function AgentRetirement(state: AgentState): (path: seq<AgentState>)
    ensures LegalAgentPath(state, path)
    ensures AgentTerminal(if path == [] then state else path[|path| - 1])
    ensures path == [] <==> AgentTerminal(state)
  {
    match state
    case AgentReady =>
      assert [AgentQuiescing, AgentSealed][1..] == [AgentSealed];
      [AgentQuiescing, AgentSealed]
    case AgentRunning =>
      assert [AgentQuiescing, AgentSealed][1..] == [AgentSealed];
      [AgentQuiescing, AgentSealed]
    case AgentQuiescing => [AgentSealed]
    case AgentProvisioning => [AgentFailed]
    case AgentBooting => [AgentFailed]
    case _ => []
  }

  // --------------------------------------------------- tables built at start-up

  /** Fills a table with its declared transitions and then, for every live state,
      every failure state: the nested loops of the failure-aware builders. */
  method FailureAwareTable<S(==)>(declared: seq<(S, S)>, live: seq<S>, failures: seq<S>) returns (table: set<(S, S)>)
    ensures forall f: S, t: S :: (f, t) in table <==> (f, t) in declared || (f in live && t in failures)
  {
    table := {};
    for i := 0 to |declared|
      invariant forall f: S, t: S :: (f, t) in table <==> (f, t) in declared[..i]
    {
      table := table + {declared[i]};
    }
    for i := 0 to |live|
      invariant forall f: S, t: S :: (f, t) in table <==> (f, t) in declared || (f in live[..i] && t in failures)
    {
      for j := 0 to |failures|
        invariant forall f: S, t: S :: (f, t) in table <==>
          (f, t) in declared || (f in live[..i] && t in failures) || (f == live[i] && t in failures[..j])
      {
        table := table + {(live[i], failures[j])};
      }
    }
  }

  /** The tables built by loops hold exactly the transitions of the relations above. */
  method AgentTable() returns (table: set<(AgentState, AgentState)>)
    ensures forall f, t :: (f, t) in table <==> AgentStep(f, t)
  {
    var declared := [(AgentProvisioning, AgentBooting), (AgentBooting, AgentReady), (AgentReady, AgentRunning),
                     (AgentReady, AgentQuiescing), (AgentRunning, AgentQuiescing), (AgentQuiescing, AgentSealed)];
    var live := [AgentProvisioning, AgentBooting, AgentReady, AgentRunning, AgentQuiescing];
    var failures := [AgentFailed, AgentQuarantined, AgentLost];
    table := FailureAwareTable(declared, live, failures);
    assert forall t :: t in failures <==> AgentFailure(t);
    assert forall f :: f in live <==> !AgentTerminal(f);
  }

  method TargetTable() returns (table: set<(TargetState, TargetState)>)
    ensures forall f, t :: (f, t) in table <==> TargetStep(f, t)
  {
    var declared := [(TargetProvisioning, TargetInstrumenting), (TargetInstrumenting, TargetReady),
                     (TargetReady, TargetResettable), (TargetResettable, TargetDestroyed)];
    var live := [TargetProvisioning, TargetInstrumenting, TargetReady, TargetResettable];
    var failures := [TargetFailed, TargetQuarantined, TargetLost];
    table := FailureAwareTable(declared, live, failures);
    assert forall t :: t in failures <==> TargetFailure(t);
    assert forall f :: f in live <==> !TargetTerminal(f);
  }

  method RunTable() returns (table: set<(RunState, RunState)>)
    ensures forall f, t :: (f, t) in table <==> RunStep(f, t)
  {
    var declared := [(RunRequested, RunPreparing), (RunPreparing, RunObserving), (RunObserving, RunRunning),
                     (RunRunning, RunFinalizing), (RunFinalizing, RunCompleted)];
    var live := [RunRequested, RunPreparing, RunObserving, RunRunning, RunFinalizing];
    var failures := [RunFailed, RunQuarantined, RunLost];
    table := FailureAwareTable(declared, live, failures);
    assert forall t :: t in failures <==> RunFailure(t);
    assert forall f :: f in live <==> !RunTerminal(f);
  }
}
