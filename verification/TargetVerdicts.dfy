/** When commands on targets, runs and operations are accepted, and what each refusal means. */
module TargetVerdicts {
  import opened States
  import opened Records
  import opened Replay
  import opened Commands
  import opened Effects
  import opened TargetEffects
  import opened OwnerVerdicts

  predicate HasTarget(s: State, id: Token, generation: nat) {
    id in s.targets && 1 <= generation <= |s.targets[id].generations|
  }

  /** The realization of a target with a number. */
  function TargetAt(s: State, id: Token, generation: nat): TargetGen
    requires HasTarget(s, id, generation)
  {
    s.targets[id].generations[generation - 1]
  }

  lemma TargetFound(t: Target, generation: nat)
    requires Numbered(t)
    ensures var gens := t.generations;
            TargetGenIndex(gens, generation) == if 1 <= generation <= |gens| then generation - 1 else |gens|
  {
    if 1 <= generation <= |t.generations| {
      assert t.generations[generation - 1].identity.generation == generation;
    }
  }

  /** The lease of a target lets it change: it is serving, or winding down if this is cleaning up. */
  predicate Served(s: State, t: Target, now: Time, cleanup: bool) {
    && t.identity.leaseId in s.leases
    && var l := s.leases[t.identity.leaseId];
    Serving(l, now) || (cleanup && l.termination.state in {TerminationReleasing, TerminationExpiring})
  }

  lemma GateIs(s: State, id: Token, cleanup: bool, env: Env)
    ensures GateTarget(s, id, cleanup, env) ==
            if id !in s.targets then Err(NotFound)
            else if Served(s, s.targets[id], env.guard, cleanup) then Ok(s.targets[id])
            else Err(OutOfScope)
  {}

  predicate Unserved(s: State, id: Token, now: Time, cleanup: bool) {
    id in s.targets && !Served(s, s.targets[id], now, cleanup)
  }

  // -------------------------------------------------------------------------- realizations

  predicate CreateTargetFault(s: State, leaseId: Token, key: Token, template: Token, kind: Token, policy: Token,
      capability: Token, env: Env, e: Error)
  {
    match e
    case InvalidArgument => key == 0 || template == 0 || kind == 0 || policy == 0 || capability == 0
    case NotFound => leaseId !in s.leases
    case OutOfScope => leaseId in s.leases && !Serving(s.leases[leaseId], env.guard)
    case _ => false
  }

  lemma CreateTargetIs(s: State, leaseId: Token, key: Token, template: Token, kind: Token, policy: Token,
      capability: Token, env: Env)
    ensures var o := CreateTarget(s, leaseId, key, template, kind, policy, capability, env);
            if o.Rejected? then CreateTargetFault(s, leaseId, key, template, kind, policy, capability, env, o.error)
            else forall e :: !CreateTargetFault(s, leaseId, key, template, kind, policy, capability, env, e)
  {}

  predicate TransitionGenFault(s: State, id: Token, generation: nat, expected: nat, state: TargetState, env: Env,
      e: Error)
  {
    var known := HasTarget(s, id, generation);
    match e
    case NotFound => !known
    case OutOfScope => Unserved(s, id, env.guard, false)
    case RevisionConflict => known && TargetAt(s, id, generation).revision != expected
    case InvalidTransition => known && !TargetStep(TargetAt(s, id, generation).state, state)
    case _ => false
  }

  lemma TransitionGenIs(s: State, id: Token, generation: nat, expected: nat, state: TargetState, env: Env)
    requires TargetsFiled(s)
    ensures var o := TransitionTargetGen(s, id, generation, expected, state, env);
            if o.Rejected? then TransitionGenFault(s, id, generation, expected, state, env, o.error)
            else forall e :: !TransitionGenFault(s, id, generation, expected, state, env, e)
  {
    GateIs(s, id, false, env);
    if id in s.targets { TargetFound(s.targets[id], generation); }
  }

  predicate BindGenFault(s: State, id: Token, generation: nat, expected: nat, binding: Binding, env: Env, e: Error) {
    var current := HasTarget(s, id, generation) && generation == |s.targets[id].generations|;
    match e
    case InvalidArgument => generation == 0 || expected == 0 || binding.plan == 0 || binding.key == 0
    case NotFound => id !in s.targets
    case OutOfScope => Unserved(s, id, env.guard, false)
    case FailedPrecondition =>
      id in s.targets && (!current || !TargetAt(s, id, generation).state.TargetProvisioning?)
    case RevisionConflict => current && TargetAt(s, id, generation).revision != expected
    case IdempotencyConflict => current && TargetAt(s, id, generation).binding != Binding(0, 0)
    case _ => false
  }

  lemma BindGenIs(s: State, id: Token, generation: nat, expected: nat, binding: Binding, env: Env)
    requires TargetsFiled(s)
    ensures var o := BindTargetPlan(s, id, generation, expected, binding, env);
            if o.Rejected? then BindGenFault(s, id, generation, expected, binding, env, o.error)
            else forall e :: !BindGenFault(s, id, generation, expected, binding, env, e)
  {
    GateIs(s, id, false, env);
    if id in s.targets { TargetFound(s.targets[id], generation); }
  }

  /** The last realization of a target. */
  function LastGen(t: Target): TargetGen
    requires t.generations != []
  {
    t.generations[|t.generations| - 1]
  }

  predicate ResetFault(s: State, id: Token, expected: nat, env: Env, e: Error) {
    match e
    case NotFound => id !in s.targets
    case OutOfScope => Unserved(s, id, env.guard, false)
    case RevisionConflict => id in s.targets && s.targets[id].revision != expected
    case FailedPrecondition =>
      id in s.targets && (var t := s.targets[id];
        || (exists r :: r in t.runs && r.identity.generation == |t.generations| && !RunTerminal(r.state))
        || (t.generations != [] && LastGen(t).state !in {TargetResettable, TargetFailed, TargetDestroyed}))
    case _ => false
  }

  lemma ResetIs(s: State, id: Token, expected: nat, incidentId: Token, env: Env)
    requires TargetsFiled(s)
    ensures var o := ResetTarget(s, id, expected, incidentId, env);
            if o.Rejected? then ResetFault(s, id, expected, env, o.error)
            else forall e :: !ResetFault(s, id, expected, env, e)
  {
    GateIs(s, id, false, env);
    if id in s.targets {
      var t := s.targets[id];
      TargetFound(t, t.current);
      forall k | 0 <= k < |t.runs| ensures t.runs[k] in t.runs {}
    }
  }

  predicate QuarantineFault(s: State, id: Token, expected: nat, evidenceTarget: Token, evidenceGeneration: nat,
      env: Env, e: Error)
  {
    match e
    case NotFound => id !in s.targets
    case OutOfScope => Unserved(s, id, env.guard, true)
    case RevisionConflict => id in s.targets && s.targets[id].revision != expected
    case InvalidArgument =>
      id in s.targets && !(evidenceTarget == id && evidenceGeneration == |s.targets[id].generations|)
    case InvalidTransition =>
      && id in s.targets && s.targets[id].generations != []
      && (var last := LastGen(s.targets[id]).state;
          !last.TargetQuarantined? && !TargetStep(last, TargetQuarantined))
    case _ => false
  }

  lemma QuarantineIs(s: State, id: Token, expected: nat, evidenceTarget: Token, evidenceGeneration: nat, env: Env)
    requires TargetsFiled(s)
    ensures var o := QuarantineTarget(s, id, expected, evidenceTarget, evidenceGeneration, env);
            if o.Rejected? then QuarantineFault(s, id, expected, evidenceTarget, evidenceGeneration, env, o.error)
            else forall e :: !QuarantineFault(s, id, expected, evidenceTarget, evidenceGeneration, env, e)
  {
    GateIs(s, id, true, env);
    if id in s.targets { TargetFound(s.targets[id], s.targets[id].current); }
  }

  // ---------------------------------------------------------------------------------- runs

  ghost predicate RunIn(s: State, id: Token, runId: Token, r: Run) {
    id in s.targets && r in s.targets[id].runs && r.id == runId
  }

  ghost predicate HasRunWith(s: State, id: Token, runId: Token) { exists r :: RunIn(s, id, runId, r) }

  /** The run that is found by its identity is the only one with it. */
  ghost predicate OneRun(s: State, id: Token, runId: Token) {
    id in s.targets ==>
      var runs := s.targets[id].runs;
      var i := RunIndex(runs, runId);
      if i < |runs| then RunIn(s, id, runId, runs[i]) && forall r | RunIn(s, id, runId, r) :: r == runs[i]
      else !HasRunWith(s, id, runId)
  }

  lemma RunFound(s: State, id: Token, runId: Token)
    requires TargetsFiled(s) && id in s.targets
    ensures OneRun(s, id, runId)
  {
    var runs := s.targets[id].runs;
    var i := RunIndex(runs, runId);
    forall r | RunIn(s, id, runId, r) ensures i < |runs| && r == runs[i] {
      var j :| 0 <= j < |runs| && runs[j] == r;
      assert i <= j;
    }
  }

  predicate StartRunFault(s: State, id: Token, materialization: Token, env: Env, e: Error) {
    match e
    case InvalidArgument => materialization == 0
    case NotFound => id !in s.targets
    case OutOfScope =>
      && id in s.targets
      && (|| !Served(s, s.targets[id], env.guard, false)
          || (var l := s.leases[s.targets[id].identity.leaseId]; !Current(s, l.identity.agentId, l.agentGeneration)))
    case FailedPrecondition =>
      && id in s.targets
      && (var t := s.targets[id];
          || (&& t.identity.leaseId in s.leases
              && var l := s.leases[t.identity.leaseId];
              && Current(s, l.identity.agentId, l.agentGeneration)
              && !TakesWork(AgentAt(s, l.identity.agentId, l.agentGeneration)))
          || (t.generations != [] && !LastGen(t).state.TargetReady?)
          || exists r :: r in t.runs && r.identity.generation == |t.generations|)
    case _ => false
  }

  lemma StartRunIs(s: State, id: Token, materialization: Token, env: Env)
    requires TargetsFiled(s) && AgentsFiled(s)
    ensures var o := StartRun(s, id, materialization, env);
            if o.Rejected? then StartRunFault(s, id, materialization, env, o.error)
            else forall e :: !StartRunFault(s, id, materialization, env, e)
  {
    GateIs(s, id, false, env);
    if id in s.targets {
      var t := s.targets[id];
      TargetFound(t, t.current);
      forall k | 0 <= k < |t.runs| ensures t.runs[k] in t.runs {}
      if t.identity.leaseId in s.leases {
        AcceptingIs(s, s.leases[t.identity.leaseId].identity.agentId, s.leases[t.identity.leaseId].agentGeneration);
      }
    }
  }

  ghost predicate BindRunFault(s: State, id: Token, runId: Token, expected: nat, binding: Binding, env: Env, e: Error) {
    match e
    case InvalidArgument => expected == 0 || binding.plan == 0 || binding.key == 0
    case NotFound => !HasRunWith(s, id, runId)
    case OutOfScope => Unserved(s, id, env.guard, false)
    case RevisionConflict => exists r :: RunIn(s, id, runId, r) && r.revision != expected
    case FailedPrecondition => exists r :: RunIn(s, id, runId, r) && !r.state.RunRequested?
    case IdempotencyConflict => exists r :: RunIn(s, id, runId, r) && r.binding != Binding(0, 0)
    case _ => false
  }

  lemma BindRunIs(s: State, id: Token, runId: Token, expected: nat, binding: Binding, env: Env)
    requires TargetsFiled(s)
    ensures var o := BindRunPlan(s, id, runId, expected, binding, env);
            if o.Rejected? then BindRunFault(s, id, runId, expected, binding, env, o.error)
            else forall e :: !BindRunFault(s, id, runId, expected, binding, env, e)
  {
    GateIs(s, id, false, env);
    if id in s.targets { RunFound(s, id, runId); }
  }

  ghost predicate TransitionRunFault(s: State, id: Token, runId: Token, expected: nat, state: RunState, env: Env,
      e: Error)
  {
    match e
    case NotFound => !HasRunWith(s, id, runId)
    case OutOfScope => Unserved(s, id, env.guard, RunTerminal(state))
    case RevisionConflict => exists r :: RunIn(s, id, runId, r) && r.revision != expected
    case FailedPrecondition => state.RunCompleted? || state.RunFailed?
    case InvalidTransition => exists r :: RunIn(s, id, runId, r) && !RunStep(r.state, state)
    case _ => false
  }

  lemma TransitionRunIs(s: State, id: Token, runId: Token, expected: nat, state: RunState, env: Env)
    requires TargetsFiled(s)
    ensures var o := TransitionRun(s, id, runId, expected, state, env);
            if o.Rejected? then TransitionRunFault(s, id, runId, expected, state, env, o.error)
            else forall e :: !TransitionRunFault(s, id, runId, expected, state, env, e)
  {
    if id in s.targets { RunFound(s, id, runId); }
    TransitionOneRun(s, id, runId, expected, state, env);
  }

  lemma TransitionOneRun(s: State, id: Token, runId: Token, expected: nat, state: RunState, env: Env)
    requires OneRun(s, id, runId)
    ensures var o := TransitionRun(s, id, runId, expected, state, env);
            if o.Rejected? then TransitionRunFault(s, id, runId, expected, state, env, o.error)
            else forall e :: !TransitionRunFault(s, id, runId, expected, state, env, e)
  {
    GateIs(s, id, RunTerminal(state), env);
  }

  /** The incident is about the run, and about the realization it ran on. */
  predicate AboutRun(i: IncidentIdentity, t: Target, r: Run) {
    && i.sessionId == t.identity.sessionId && i.targetId == t.id
    && i.runId == r.id && i.targetGeneration == r.identity.generation
  }

  /** A run that is to fail may fail; one that is to complete is finalizing, or may be next. */
  predicate MayEnd(r: Run, failed: bool) {
    if failed then RunStep(r.state, RunFailed) else r.state.RunFinalizing? || RunStep(r.state, RunFinalizing)
  }

  ghost predicate FinalizeRunFault(s: State, id: Token, runId: Token, expected: nat, failed: bool, bundle: Bundle,
      incidentIds: seq<Token>, env: Env, e: Error)
  {
    match e
    case InvalidArgument =>
      bundle.id == 0 || !(bundle.artifact == 0 <==> bundle.digest == 0) || 0 in incidentIds
    case NotFound => !HasRunWith(s, id, runId) || exists i :: i in incidentIds && i !in s.incidents
    case OutOfScope =>
      || Unserved(s, id, env.guard, true)
      || exists r, i :: RunIn(s, id, runId, r) && i in incidentIds && i in s.incidents
                        && !AboutRun(s.incidents[i].identity, s.targets[id], r)
    case RevisionConflict => exists r :: RunIn(s, id, runId, r) && r.revision != expected
    case InvalidTransition => exists r :: RunIn(s, id, runId, r) && !MayEnd(r, failed)
    case _ => false
  }

  lemma FinalizeRunIs(s: State, id: Token, runId: Token, expected: nat, failed: bool, bundle: Bundle,
      incidentIds: seq<Token>, env: Env)
    requires TargetsFiled(s)
    ensures var o := FinalizeRun(s, id, runId, expected, failed, bundle, incidentIds, env);
            if o.Rejected? then FinalizeRunFault(s, id, runId, expected, failed, bundle, incidentIds, env, o.error)
            else forall e :: !FinalizeRunFault(s, id, runId, expected, failed, bundle, incidentIds, env, e)
  {
    GateIs(s, id, true, env);
    if id in s.targets { RunFound(s, id, runId); }
    forall k | 0 <= k < |incidentIds| ensures incidentIds[k] in incidentIds {}
  }

  // ---------------------------------------------------------------------------- operations

  ghost predicate CreateOperationFault(s: State, id: Token, runId: Token, description: Token, env: Env, e: Error) {
    match e
    case InvalidArgument => description == 0
    case NotFound => !HasRunWith(s, id, runId) || s.targets[id].identity.leaseId !in s.leases
    case OutOfScope =>
      || Unserved(s, id, env.guard, false)
      || exists r :: RunIn(s, id, runId, r) && !Current(s, r.identity.agentId, r.identity.agentGeneration)
    case FailedPrecondition =>
      exists r :: RunIn(s, id, runId, r) &&
        (|| !r.state.RunRunning?
         || (&& Current(s, r.identity.agentId, r.identity.agentGeneration)
             && !TakesWork(AgentAt(s, r.identity.agentId, r.identity.agentGeneration))))
    case _ => false
  }

  lemma CreateOperationIs(s: State, id: Token, runId: Token, description: Token, env: Env)
    requires TargetsFiled(s) && AgentsFiled(s)
    ensures var o := CreateOperation(s, id, runId, description, env);
            if o.Rejected? then CreateOperationFault(s, id, runId, description, env, o.error)
            else forall e :: !CreateOperationFault(s, id, runId, description, env, e)
  {
    if id in s.targets {
      RunFound(s, id, runId);
      var runs := s.targets[id].runs;
      var i := RunIndex(runs, runId);
      if i < |runs| { AcceptingIs(s, runs[i].identity.agentId, runs[i].identity.agentGeneration); }
    }
  }

  ghost predicate OperationIn(s: State, id: Token, operationId: Token, o: Operation) {
    id in s.targets && o in s.targets[id].operations && o.id == operationId
  }

  ghost predicate OneOperation(s: State, id: Token, operationId: Token) {
    id in s.targets ==>
      var operations := s.targets[id].operations;
      var i := OperationIndex(operations, operationId);
      if i < |operations| then
        && OperationIn(s, id, operationId, operations[i])
        && forall o | OperationIn(s, id, operationId, o) :: o == operations[i]
      else forall o :: !OperationIn(s, id, operationId, o)
  }

  lemma OperationFound(s: State, id: Token, operationId: Token)
    requires TargetsFiled(s) && id in s.targets
    ensures OneOperation(s, id, operationId)
  {
    var operations := s.targets[id].operations;
    var i := OperationIndex(operations, operationId);
    forall o | OperationIn(s, id, operationId, o) ensures i < |operations| && o == operations[i] {
      var j :| 0 <= j < |operations| && operations[j] == o;
      assert i <= j;
    }
  }

  ghost predicate TransitionOperationFault(s: State, id: Token, operationId: Token, expected: nat,
      state: OperationState, env: Env, e: Error)
  {
    match e
    case NotFound => !exists o :: OperationIn(s, id, operationId, o)
    case OutOfScope => Unserved(s, id, env.guard, OperationTerminal(state))
    case RevisionConflict => exists o :: OperationIn(s, id, operationId, o) && o.revision != expected
    case InvalidTransition => exists o :: OperationIn(s, id, operationId, o) && !OperationStep(o.state, state)
    case _ => false
  }

  lemma TransitionOperationIs(s: State, id: Token, operationId: Token, expected: nat, state: OperationState, env: Env)
    requires TargetsFiled(s)
    ensures var o := TransitionOperation(s, id, operationId, expected, state, env);
            if o.Rejected? then TransitionOperationFault(s, id, operationId, expected, state, env, o.error)
            else forall e :: !TransitionOperationFault(s, id, operationId, expected, state, env, e)
  {
    if id in s.targets { OperationFound(s, id, operationId); }
    TransitionOneOperation(s, id, operationId, expected, state, env);
  }

  lemma TransitionOneOperation(s: State, id: Token, operationId: Token, expected: nat, state: OperationState, env: Env)
    requires OneOperation(s, id, operationId)
    ensures var o := TransitionOperation(s, id, operationId, expected, state, env);
            if o.Rejected? then TransitionOperationFault(s, id, operationId, expected, state, env, o.error)
            else forall e :: !TransitionOperationFault(s, id, operationId, expected, state, env, e)
  {
    GateIs(s, id, OperationTerminal(state), env);
  }
}
