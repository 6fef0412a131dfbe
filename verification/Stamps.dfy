/** Every record that a command writes carries the command's own time. */
module Stamps {
  import opened States
  import opened Records
  import opened Replay
  import opened Commands
  import opened Invariant

  ghost predicate Stamped(records: seq<Control>, at: Time) {
    forall k | 0 <= k < |records| :: records[k].body.UpdatedAt() == at
  }

  lemma BeforeAfterPut(s: State, body: Aggregate, at: Time)
    requires Before(s, at) && body.UpdatedAt() <= at
    ensures Before(Put(s, body), at)
  {}

  lemma {:induction false} StampedBefore(s: State, records: seq<Control>, at: Time)
    requires Before(s, at) && Stamped(records, at) && Replayed(s, records).Some?
    ensures Before(Replayed(s, records).value, at)
  {
    if records != [] {
      var front, last := records[..|records| - 1], records[|records| - 1];
      StampedBefore(s, front, at);
      BeforeAfterPut(Replayed(s, front).value, last.body, at);
    }
  }

  lemma {:induction false} TargetTrailStamped(t: Target, i: nat, path: seq<TargetState>, at: Time)
    requires i < |t.generations|
    ensures Stamped(TargetTrail(t, i, path, at), at)
    decreases |path|
  {
    if path != [] { TargetTrailStamped(TargetGenMoved(t, i, path[0], at), i, path[1..], at); }
  }

  lemma {:induction false} AgentTrailStamped(a: Agent, i: nat, path: seq<AgentState>, at: Time)
    requires i < |a.generations|
    ensures Stamped(AgentTrail(a, i, path, at), at)
    decreases |path|
  {
    if path != [] { AgentTrailStamped(AgentGenMoved(a, i, path[0], at), i, path[1..], at); }
  }

  lemma RecoverTargetStamped(s: State, v: Incident, lease: Lease, env: Env)
    ensures RecoverTarget(s, v, lease, env).Ok? ==> Stamped(RecoverTarget(s, v, lease, env).value, env.stamp)
  {
    if RecoverTarget(s, v, lease, env).Ok? {
      var t := s.targets[v.identity.targetId];
      var g := TargetGenIndex(t.generations, t.current);
      TargetTrailStamped(t, g, TargetRetirement(t.generations[g].state), env.stamp);
    }
  }

  lemma RecoverAgentStamped(s: State, v: Incident, lease: Lease, env: Env)
    ensures RecoverAgent(s, v, lease, env).Ok? ==> Stamped(RecoverAgent(s, v, lease, env).value, env.stamp)
  {
    if RecoverAgent(s, v, lease, env).Ok? {
      var a := s.agents[v.identity.agentId];
      var g := AgentGenIndex(a.generations, a.current);
      AgentTrailStamped(a, g, AgentRetirement(a.generations[g].state), env.stamp);
    }
  }

  lemma {:induction false} SealAllStamped(s: State, t: Target, r: Run, ids: seq<Token>, bundleId: Token,
      artifact: Artifact, at: Time)
    ensures SealAll(s, t, r, ids, bundleId, artifact, at).Ok? ==>
            Stamped(SealAll(s, t, r, ids, bundleId, artifact, at).value, at)
    decreases |ids|
  {
    if ids != [] { SealAllStamped(s, t, r, ids[..|ids| - 1], bundleId, artifact, at); }
  }

  lemma {:induction false} RetireTargetsStamped(s: State, ids: seq<Token>, at: Time)
    requires forall id | id in ids :: id in s.targets
    ensures RetireTargets(s, ids, at).Ok? ==> Stamped(RetireTargets(s, ids, at).value, at)
    decreases |ids|
  {
    if ids != [] {
      RetireTargetsStamped(s, ids[..|ids| - 1], at);
      var t := s.targets[ids[|ids| - 1]];
      var g := TargetGenIndex(t.generations, t.current);
      if g < |t.generations| { TargetTrailStamped(t, g, TargetRetirement(t.generations[g].state), at); }
    }
  }

  lemma CompleteStamped(s: State, leaseId: Token, expected: nat, key: Token, digest: Token, env: Env)
    ensures var r := CompleteTermination(s, leaseId, expected, key, digest, env); r.Ok? ==> Stamped(r.value, env.stamp)
  {
    if CompleteTermination(s, leaseId, expected, key, digest, env).Ok? {
      var l := s.leases[leaseId];
      var x, a := s.sessions[l.identity.sessionId], s.agents[l.identity.agentId];
      var targets := RetireTargets(s, TargetIdsOf(s, leaseId), env.stamp).value;
      var rest := RetireAgent(a, env.stamp).value + Closing(x, l, key, digest, env.stamp);
      RetireTargetsStamped(s, TargetIdsOf(s, leaseId), env.stamp);
      AgentClosingStamped(a, x, l, key, digest, env.stamp);
      StampedBoth(targets, rest, env.stamp);
    }
  }

  lemma StampedBoth(first: seq<Control>, rest: seq<Control>, at: Time)
    requires Stamped(first, at) && Stamped(rest, at)
    ensures Stamped(first + rest, at)
  {}

  lemma AgentClosingStamped(a: Agent, x: Session, l: Lease, key: Token, digest: Token, at: Time)
    requires RetireAgent(a, at).Ok?
    ensures Stamped(RetireAgent(a, at).value + Closing(x, l, key, digest, at), at)
  {
    var g := AgentGenIndex(a.generations, a.current);
    AgentTrailStamped(a, g, AgentRetirement(a.generations[g].state), at);
  }

  ghost predicate StampedOutcome(o: Outcome, at: Time) { o.Written? ==> Stamped(o.records, at) }

  lemma OwnersStamped(s: State, c: OwnerCommand, env: Env)
    ensures StampedOutcome(HandleOwner(s, c, env), env.stamp)
  {}

  lemma ExecsStamped(s: State, c: ExecCommand, env: Env)
    ensures StampedOutcome(HandleExec(s, c, env), env.stamp)
  {}

  lemma TargetsStamped(s: State, c: TargetCommand, env: Env)
    ensures StampedOutcome(HandleTarget(s, c, env), env.stamp)
  {}

  lemma FinalizeRunStamped(s: State, id: Token, runId: Token, expected: nat, failed: bool, bundle: Bundle,
      incidentIds: seq<Token>, env: Env)
    ensures StampedOutcome(FinalizeRun(s, id, runId, expected, failed, bundle, incidentIds, env), env.stamp)
  {}

  lemma RunsStamped(s: State, c: RunCommand, env: Env)
    ensures StampedOutcome(HandleRun(s, c, env), env.stamp)
  {
    if c.FinalizeRunCommand? { FinalizeRunStamped(s, c.targetId, c.runId, c.expected, c.failed, c.bundle,
        c.incidentIds, env); }
  }

  lemma CreateIncidentStamped(s: State, wanted: IncidentIdentity, evidence: Evidence, env: Env)
    ensures StampedOutcome(CreateIncident(s, wanted, evidence, env), env.stamp)
  {}

  lemma SealStamped(s: State, id: Token, runId: Token, bundleId: Token, artifact: Artifact, incidentIds: seq<Token>,
      env: Env)
    ensures StampedOutcome(SealRunIncidents(s, id, runId, bundleId, artifact, incidentIds, env), env.stamp)
  {
    if SealRunIncidents(s, id, runId, bundleId, artifact, incidentIds, env).Written? {
      var t := s.targets[id];
      SealAllStamped(s, t, t.runs[RunIndex(t.runs, runId)], Normalized(incidentIds), bundleId, artifact, env.stamp);
    }
  }

  lemma RecoverStamped(s: State, id: Token, expected: nat, resource: Resource, strategy: Token, acknowledgement: Token,
      env: Env)
    ensures StampedOutcome(RecoverIncident(s, id, expected, resource, strategy, acknowledgement, env), env.stamp)
  {
    if RecoverIncident(s, id, expected, resource, strategy, acknowledgement, env).Written? {
      var v := Recovering(s.incidents[id], resource, strategy, acknowledgement, env.stamp);
      RecoverTargetStamped(s, v, s.leases[v.identity.leaseId], env);
      RecoverAgentStamped(s, v, s.leases[v.identity.leaseId], env);
    }
  }

  lemma IncidentsStamped(s: State, c: IncidentCommand, env: Env)
    ensures StampedOutcome(HandleIncident(s, c, env), env.stamp)
  {
    match c {
      case CreateIncidentCommand(identity, evidence) => CreateIncidentStamped(s, identity, evidence, env);
      case RecoverIncidentCommand(id, expected, resource, strategy, acknowledgement) =>
        RecoverStamped(s, id, expected, resource, strategy, acknowledgement, env);
      case SealRunIncidentsCommand(id, runId, bundleId, artifact, ids) =>
          SealStamped(s, id, runId, bundleId, artifact, ids, env);
      case _ =>
    }
  }

  lemma TerminationsStamped(s: State, c: TerminationCommand, env: Env)
    ensures StampedOutcome(HandleTermination(s, c, env), env.stamp)
  {
    if c.CompleteReleaseCommand? || c.CompleteTerminationCommand? {
      CompleteStamped(s, c.leaseId, c.expected, c.key, c.digest, env);
    }
  }

  lemma HandleStamped(s: State, c: Command, env: Env)
    ensures StampedOutcome(Handle(s, c, env), env.stamp)
  {
    match c
    case Owner(c) => OwnersStamped(s, c, env);
    case OnExec(c) => ExecsStamped(s, c, env);
    case OnTarget(c) => TargetsStamped(s, c, env);
    case OnRun(c) => RunsStamped(s, c, env);
    case OnIncident(c) => IncidentsStamped(s, c, env);
    case Terminating(c) => TerminationsStamped(s, c, env);
  }
}
