/** When commands on incidents are accepted, and what each refusal means. */
module IncidentVerdicts {
  import opened States
  import opened Records
  import opened Replay
  import opened Commands
  import opened Effects
  import opened TargetEffects
  import opened OwnerVerdicts
  import opened TargetVerdicts
  import opened Recoveries

  // ------------------------------------------------------------------------------ creation

  predicate Unidentified(artifacts: seq<Artifact>) {
    exists a :: a in artifacts && (a.reference == 0 || a.digest == 0)
  }

  /** What is named without what it belongs to. */
  predicate Dangling(i: IncidentIdentity) {
    || (i.execId != 0 && (i.agentId == 0 || i.agentGeneration == 0))
    || (i.agentGeneration != 0 && i.agentId == 0)
    || (i.targetGeneration != 0 && i.targetId == 0)
    || (i.runId != 0 && (i.targetId == 0 || i.targetGeneration == 0))
  }

  /** The owners that an incident names are recorded, in its session. */
  predicate OwnersNamed(s: State, i: IncidentIdentity) {
    && (i.leaseId != 0 ==> i.leaseId in s.leases && s.leases[i.leaseId].identity.sessionId == i.sessionId)
    && (i.agentId != 0 ==> i.agentId in s.agents && s.agents[i.agentId].sessionId == i.sessionId)
    && (i.agentId != 0 && i.agentGeneration != 0 ==> HasAgent(s, i.agentId, i.agentGeneration))
  }

  predicate ExecNamed(s: State, i: IncidentIdentity) {
    i.execId != 0 ==>
      && i.execId in s.execs
      && var x := s.execs[i.execId].identity;
      x.sessionId == i.sessionId && x.leaseId == i.leaseId && x.agentId == i.agentId
      && x.agentGeneration == i.agentGeneration
  }

  /** The run that an incident names is on the realization it names, for the agent it names. */
  predicate NamedRun(i: IncidentIdentity, r: Run) {
    && r.identity.generation == i.targetGeneration
    && (i.agentId != 0 ==> r.identity.agentId == i.agentId && r.identity.agentGeneration == i.agentGeneration)
  }

  ghost predicate TargetNamed(s: State, i: IncidentIdentity) {
    i.targetId != 0 ==>
      && i.targetId in s.targets && s.targets[i.targetId].identity.sessionId == i.sessionId
      && (i.targetGeneration != 0 ==> HasTarget(s, i.targetId, i.targetGeneration))
      && (i.runId != 0 ==> exists r :: RunIn(s, i.targetId, i.runId, r) && NamedRun(i, r))
  }

  ghost predicate CreateIncidentFault(s: State, i: IncidentIdentity, evidence: Evidence, e: Error) {
    match e
    case InvalidArgument => i.detail == 0 || i.sessionId == 0 || Unidentified(evidence.artifacts) || Dangling(i)
    case NotFound => i.sessionId !in s.sessions
    case OutOfScope => !OwnersNamed(s, i) || !ExecNamed(s, i) || !TargetNamed(s, i)
    case _ => false
  }

  lemma NamesAgentIs(s: State, i: IncidentIdentity)
    requires AgentsFiled(s)
    ensures NamesLease(s, i) && NamesAgent(s, i) <==> OwnersNamed(s, i)
  {
    if i.agentId in s.agents { AgentFound(s, i.agentId, i.agentGeneration); }
  }

  lemma NamesTargetIs(s: State, i: IncidentIdentity)
    requires TargetsFiled(s)
    ensures NamesTarget(s, i) <==> TargetNamed(s, i)
  {
    if i.targetId in s.targets {
      TargetFound(s.targets[i.targetId], i.targetGeneration);
      RunFound(s, i.targetId, i.runId);
    }
  }

  lemma CreateIncidentIs(s: State, wanted: IncidentIdentity, evidence: Evidence, env: Env)
    requires AgentsFiled(s) && TargetsFiled(s)
    ensures var i := wanted.(occurredAt := env.stamp);
            var o := CreateIncident(s, wanted, evidence, env);
            if o.Rejected? then CreateIncidentFault(s, i, evidence, o.error)
            else forall e :: !CreateIncidentFault(s, i, evidence, e)
  {
    var i := wanted.(occurredAt := env.stamp);
    NamesAgentIs(s, i);
    NamesTargetIs(s, i);
    CreateIncidentGate(s, wanted, evidence, env);
  }

  lemma CreateIncidentGate(s: State, wanted: IncidentIdentity, evidence: Evidence, env: Env)
    requires var i := wanted.(occurredAt := env.stamp);
             && (NamesLease(s, i) && NamesAgent(s, i) <==> OwnersNamed(s, i))
             && (NamesTarget(s, i) <==> TargetNamed(s, i))
    ensures var i := wanted.(occurredAt := env.stamp);
            var o := CreateIncident(s, wanted, evidence, env);
            if o.Rejected? then CreateIncidentFault(s, i, evidence, o.error)
            else forall e :: !CreateIncidentFault(s, i, evidence, e)
  {
    assert CompleteArtifacts(evidence.artifacts) <==> !Unidentified(evidence.artifacts) by {
      forall k | 0 <= k < |evidence.artifacts| ensures evidence.artifacts[k] in evidence.artifacts {}
    }
  }

  // --------------------------------------------------------------------------- transitions

  /** Some intended recovery has not been carried out. */
  ghost predicate Unfinished(v: Incident, actions: set<Action>) {
    exists a :: a in v.recoveryActions && Meant(a) && Physical(a.resource, a.strategy) !in actions
  }

  ghost predicate TransitionIncidentFault(s: State, id: Token, expected: nat, state: IncidentState,
      actions: set<Action>, acknowledgements: set<Token>, completion: bool, e: Error)
  {
    var known := id in s.incidents;
    match e
    case InvalidArgument => (completion && !state.IncidentResolved?) || Remark(0) in actions || 0 in acknowledgements
    case NotFound => !known
    case RevisionConflict => known && s.incidents[id].revision != expected
    case FailedPrecondition =>
      || state.IncidentRecovering?
      || (known && (var v := s.incidents[id];
          || (state.IncidentEvidenceSealed? && v.evidence == Evidence(0, []))
          || (v.state.IncidentRecovering? && state.IncidentResolved? && !completion)
          || (completion && (!v.state.IncidentRecovering? || Unfinished(v, actions)))))
    case IntegrityViolation =>
      && known && completion
      && (var v := s.incidents[id];
          || !(v.recoveryActions <= actions) || !(v.acknowledgements <= acknowledgements)
          || !Named(v.recoveryActions) || !Agreeing(v.recoveryActions))
    case InvalidTransition => known && !IncidentStep(s.incidents[id].state, state)
    case _ => false
  }

  lemma CompletionIs(v: Incident, actions: set<Action>)
    ensures var r := ExactCompletion(v.recoveryActions, actions);
            if r.Err? then
              || (r.error.IntegrityViolation? && !(Named(v.recoveryActions) && Agreeing(v.recoveryActions)))
              || (r.error.FailedPrecondition? && Unfinished(v, actions))
            else Named(v.recoveryActions) && Agreeing(v.recoveryActions) && !Unfinished(v, actions)
  {
    OneCounterpartIff(v.recoveryActions);
    var wanted := PhysicalCounterparts(v.recoveryActions);
    assert wanted <= actions <==> !Unfinished(v, actions) by {
      forall a | a in v.recoveryActions && Meant(a) ensures Physical(a.resource, a.strategy) in wanted {}
      forall p | p in wanted
        ensures exists a :: a in v.recoveryActions && Meant(a) && p == Physical(a.resource, a.strategy) {}
    }
  }

  lemma TransitionIncidentIs(s: State, id: Token, expected: nat, state: IncidentState, actions: set<Action>,
      acknowledgements: set<Token>, completion: bool, env: Env)
    ensures var o := TransitionIncident(s, id, expected, state, actions, acknowledgements, completion, env);
            if o.Rejected? then
              TransitionIncidentFault(s, id, expected, state, actions, acknowledgements, completion, o.error)
            else
              forall e :: !TransitionIncidentFault(s, id, expected, state, actions, acknowledgements, completion, e)
  {
    if id in s.incidents { CompletionIs(s.incidents[id], actions); }
  }

  // ------------------------------------------------------------------------------ recovery

  predicate Bundled(r: Run) { RunTerminal(r.state) && r.bundle.id != 0 }

  /** The recovery of a target replaces its last realization, whose run has ended with a bundle. */
  predicate TargetRecoveryFault(s: State, i: IncidentIdentity, lease: Lease, e: Error) {
    var known := i.targetId in s.targets;
    match e
    case OutOfScope =>
      i.targetId != 0 && (!known || s.targets[i.targetId].identity.sessionId != i.sessionId
                          || s.targets[i.targetId].identity.leaseId != lease.id)
    case FailedPrecondition =>
      || i.targetId == 0 || i.targetGeneration == 0
      || (known && (var t := s.targets[i.targetId];
          || |t.generations| != i.targetGeneration
          || exists r :: r in t.runs && r.identity.generation == |t.generations| && !Bundled(r)))
    case _ => false
  }

  lemma RecoverTargetIs(s: State, v: Incident, lease: Lease, env: Env)
    requires TargetsFiled(s)
    ensures var o := RecoverTarget(s, v, lease, env);
            if o.Err? then TargetRecoveryFault(s, v.identity, lease, o.error)
            else forall e :: !TargetRecoveryFault(s, v.identity, lease, e)
  {
    if v.identity.targetId in s.targets {
      var t := s.targets[v.identity.targetId];
      TargetFound(t, t.current);
      forall k | 0 <= k < |t.runs| ensures t.runs[k] in t.runs {}
    }
  }

  /** Work of a realization that is not done: a live exec, or a run without its bundle. */
  ghost predicate Unbundled(s: State, leaseId: Token, agentId: Token, generation: nat) {
    || (exists id :: id in s.execs && s.execs[id].identity.leaseId == leaseId
                     && s.execs[id].identity.agentGeneration == generation && !ExecTerminal(s.execs[id].state))
    || (exists id, r :: id in s.targets && s.targets[id].identity.leaseId == leaseId && r in s.targets[id].runs
                        && r.identity.agentId == agentId && r.identity.agentGeneration == generation && !Bundled(r))
  }

  ghost predicate AgentRecoveryFault(s: State, i: IncidentIdentity, lease: Lease, e: Error) {
    var known := i.agentId in s.agents;
    match e
    case OutOfScope =>
      i.agentId != 0 && (!known || s.agents[i.agentId].sessionId != i.sessionId || lease.identity.agentId != i.agentId)
    case FailedPrecondition =>
      || i.agentId == 0 || i.agentGeneration == 0
      || (known && (var a := s.agents[i.agentId];
          || |a.generations| != i.agentGeneration || lease.agentGeneration != i.agentGeneration
          || Unbundled(s, lease.id, a.id, |a.generations|)))
    case _ => false
  }

  lemma BundledIs(t: Target, a: Agent)
    ensures RunsBundled(t, a) <==>
            forall r | r in t.runs && r.identity.agentId == a.id && r.identity.agentGeneration == a.current ::
              Bundled(r)
  {
    forall k | 0 <= k < |t.runs| ensures t.runs[k] in t.runs {}
  }

  lemma UnbundledIs(s: State, leaseId: Token, a: Agent)
    ensures Unbundled(s, leaseId, a.id, a.current) <==>
            !(&& (forall id | id in s.execs ::
                    s.execs[id].identity.leaseId == leaseId && s.execs[id].identity.agentGeneration == a.current
                    ==> ExecTerminal(s.execs[id].state))
              && (forall id | id in s.targets ::
                    s.targets[id].identity.leaseId == leaseId ==> RunsBundled(s.targets[id], a)))
  {
    forall id | id in s.targets
      ensures RunsBundled(s.targets[id], a) <==>
              forall r | r in s.targets[id].runs && r.identity.agentId == a.id
                         && r.identity.agentGeneration == a.current :: Bundled(r)
    {
      BundledIs(s.targets[id], a);
    }
  }

  lemma RecoverAgentIs(s: State, v: Incident, lease: Lease, env: Env)
    requires AgentsFiled(s)
    ensures var o := RecoverAgent(s, v, lease, env);
            if o.Err? then AgentRecoveryFault(s, v.identity, lease, o.error)
            else forall e :: !AgentRecoveryFault(s, v.identity, lease, e)
  {
    if v.identity.agentId in s.agents {
      var a := s.agents[v.identity.agentId];
      AgentFound(s, v.identity.agentId, a.current);
      UnbundledIs(s, lease.id, a);
    }
  }

  ghost predicate RecoverIncidentFault(s: State, id: Token, expected: nat, resource: Resource, strategy: Token,
      acknowledgement: Token, env: Env, e: Error)
  {
    var known := id in s.incidents;
    var leased := known && s.incidents[id].identity.leaseId in s.leases;
    || (match e
        case InvalidArgument => strategy == 0 || acknowledgement == 0
        case NotFound => !known
        case RevisionConflict => known && s.incidents[id].revision != expected
        case FailedPrecondition => known && !s.incidents[id].state.IncidentEvidenceSealed?
        case OutOfScope =>
          && known
          && (!leased || (var l := s.leases[s.incidents[id].identity.leaseId];
                          l.identity.sessionId != s.incidents[id].identity.sessionId || !Serving(l, env.guard)))
        case _ => false)
    || (leased && (var i, l := s.incidents[id].identity, s.leases[s.incidents[id].identity.leaseId];
        if resource.TargetResource? then TargetRecoveryFault(s, i, l, e) else AgentRecoveryFault(s, i, l, e)))
  }

  lemma RecoverIncidentIs(s: State, id: Token, expected: nat, resource: Resource, strategy: Token,
      acknowledgement: Token, env: Env)
    requires AgentsFiled(s) && TargetsFiled(s)
    ensures var o := RecoverIncident(s, id, expected, resource, strategy, acknowledgement, env);
            if o.Rejected? then
              RecoverIncidentFault(s, id, expected, resource, strategy, acknowledgement, env, o.error)
            else forall e :: !RecoverIncidentFault(s, id, expected, resource, strategy, acknowledgement, env, e)
  {
    if id in s.incidents && s.incidents[id].identity.leaseId in s.leases {
      var v := Recovering(s.incidents[id], resource, strategy, acknowledgement, env.stamp);
      var l := s.leases[s.incidents[id].identity.leaseId];
      if resource.TargetResource? { RecoverTargetIs(s, v, l, env); } else { RecoverAgentIs(s, v, l, env); }
    }
  }

  // ------------------------------------------------------------------------------- sealing

  /** The reference of the artifact is first used for another one. */
  predicate Misused(artifacts: seq<Artifact>, artifact: Artifact) {
    exists k :: && 0 <= k < |artifacts| && artifacts[k].reference == artifact.reference && artifacts[k] != artifact
                && forall j | 0 <= j < k :: artifacts[j].reference != artifact.reference
  }

  predicate SealFault(s: State, t: Target, r: Run, id: Token, bundleId: Token, artifact: Artifact, e: Error) {
    var known := id in s.incidents;
    match e
    case NotFound => !known
    case OutOfScope =>
      known && !(AboutRun(s.incidents[id].identity, t, r) && s.incidents[id].identity.leaseId == t.identity.leaseId)
    case FailedPrecondition =>
      known && !s.incidents[id].state.IncidentOpen? && !s.incidents[id].state.IncidentEvidenceSealed?
    case IntegrityViolation =>
      && known
      && (var v := s.incidents[id];
          || (v.state.IncidentEvidenceSealed? && (v.evidence.bundleId != bundleId || artifact !in v.evidence.artifacts))
          || (v.state.IncidentOpen? && v.evidence.bundleId != 0 && v.evidence.bundleId != bundleId)
          || (v.state.IncidentOpen? && Misused(v.evidence.artifacts, artifact)))
    case _ => false
  }

  lemma WithArtifactIs(artifacts: seq<Artifact>, artifact: Artifact)
    ensures var w := WithArtifact(artifacts, artifact);
            if w.Err? then w.error.IntegrityViolation? && Misused(artifacts, artifact)
            else !Misused(artifacts, artifact)
  {
    var i := ArtifactIndex(artifacts, artifact.reference);
    if k :| 0 <= k < |artifacts| && artifacts[k].reference == artifact.reference && artifacts[k] != artifact
            && forall j | 0 <= j < k :: artifacts[j].reference != artifact.reference {
      assert i == k;
    }
  }

  lemma SealIncidentIs(s: State, t: Target, r: Run, id: Token, bundleId: Token, artifact: Artifact, at: Time)
    ensures var o := SealIncident(s, t, r, id, bundleId, artifact, at);
            if o.Err? then SealFault(s, t, r, id, bundleId, artifact, o.error)
            else forall e :: !SealFault(s, t, r, id, bundleId, artifact, e)
  {
    if id in s.incidents { WithArtifactIs(s.incidents[id].evidence.artifacts, artifact); }
  }

  ghost predicate SomeSealFault(s: State, t: Target, r: Run, ids: seq<Token>, bundleId: Token, artifact: Artifact,
      e: Error)
  {
    exists id :: id in ids && SealFault(s, t, r, id, bundleId, artifact, e)
  }

  lemma {:induction false} SealAllIs(s: State, t: Target, r: Run, ids: seq<Token>, bundleId: Token,
      artifact: Artifact, at: Time)
    ensures var o := SealAll(s, t, r, ids, bundleId, artifact, at);
            if o.Err? then SomeSealFault(s, t, r, ids, bundleId, artifact, o.error)
            else forall e :: !SomeSealFault(s, t, r, ids, bundleId, artifact, e)
    decreases |ids|
  {
    if ids != [] {
      var front, last := ids[..|ids| - 1], ids[|ids| - 1];
      SealAllIs(s, t, r, front, bundleId, artifact, at);
      SealIncidentIs(s, t, r, last, bundleId, artifact, at);
      assert ids == front + [last];
      forall e ensures SomeSealFault(s, t, r, ids, bundleId, artifact, e) <==>
                       SomeSealFault(s, t, r, front, bundleId, artifact, e)
                       || SealFault(s, t, r, last, bundleId, artifact, e)
      {
        assert forall id :: id in ids <==> id in front || id == last;
      }
    }
  }

  ghost predicate SealRunFault(s: State, id: Token, runId: Token, bundleId: Token, artifact: Artifact,
      incidentIds: seq<Token>, e: Error)
  {
    || (match e
        case InvalidArgument =>
          bundleId == 0 || artifact.reference == 0 || artifact.digest == 0 || incidentIds == [] || 0 in incidentIds
        case NotFound => !HasRunWith(s, id, runId)
        case FailedPrecondition =>
          exists r :: RunIn(s, id, runId, r)
                      && !(RunTerminal(r.state) && r.bundle == Bundle(bundleId, artifact.reference, artifact.digest))
        case _ => false)
    || (exists r :: RunIn(s, id, runId, r) && SomeSealFault(s, s.targets[id], r, incidentIds, bundleId, artifact, e))
  }

  lemma SealRunIs(s: State, id: Token, runId: Token, bundleId: Token, artifact: Artifact, incidentIds: seq<Token>,
      env: Env)
    requires TargetsFiled(s)
    ensures var o := SealRunIncidents(s, id, runId, bundleId, artifact, incidentIds, env);
            if o.Rejected? then SealRunFault(s, id, runId, bundleId, artifact, incidentIds, o.error)
            else forall e :: !SealRunFault(s, id, runId, bundleId, artifact, incidentIds, e)
  {
    if id in s.targets {
      RunFound(s, id, runId);
      var runs := s.targets[id].runs;
      var i := RunIndex(runs, runId);
      if i < |runs| {
        SealAllIs(s, s.targets[id], runs[i], Normalized(incidentIds), bundleId, artifact, env.stamp);
        forall e ensures SomeSealFault(s, s.targets[id], runs[i], Normalized(incidentIds), bundleId, artifact, e) <==>
                         SomeSealFault(s, s.targets[id], runs[i], incidentIds, bundleId, artifact, e) {}
      }
    }
  }
}
